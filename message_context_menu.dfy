/**
  The desktop end-to-end suite's message context menu page object: the emoji
  reaction row is found through a Squish real name (a dictionary of properties),
  whose 'occurrence' entry selects the n-th reaction; the emoji code is read off
  the icon path of the reaction's children, as the hex name of an .svg file.

  The driver's lookup of a real name and the children walk_children yields are an
  oracle; a child is the pair of its icon and source attributes, when present.
*/
module MessageContextMenu {
  import opened Common

  /** A value in a Squish real name. */
  datatype NameValue = NameString(s: string) | NameInt(n: int) | NameBool(b: bool)

  /** A Squish real name. */
  type RealName = map<string, NameValue>

  /** The key that selects the n-th of several matching objects (n >= 2). */
  const OccurrenceKey: string := "occurrence"

  /** The lookup name of get_emoji_code_by_occurrence: a copy of the real name with
      'occurrence' set for occurrence > 1 and removed otherwise. */
  function LookupName(realName: RealName, occurrence: int): (m: RealName)
    ensures forall k :: k != OccurrenceKey ==> (k in m <==> k in realName)
    ensures forall k :: k != OccurrenceKey && k in m ==> m[k] == realName[k]
    ensures OccurrenceKey in m <==> occurrence > 1
    ensures OccurrenceKey in m ==> m[OccurrenceKey] == NameInt(occurrence)
  {
    if occurrence > 1 then realName[OccurrenceKey := NameInt(occurrence)]
    else realName - {OccurrenceKey}
  }

  /** The lookup name depends only on whether occurrence exceeds 1 and, if so, on its
      value: every occurrence up to 1 gives the same name, with no occurrence entry. */
  lemma LookupNameFirst(realName: RealName, occurrence: int)
    requires occurrence <= 1
    ensures LookupName(realName, occurrence) == LookupName(realName, 1)
    ensures LookupName(LookupName(realName, 5), occurrence) == LookupName(realName, occurrence)
  {
    var a := LookupName(LookupName(realName, 5), occurrence);
    var b := LookupName(realName, occurrence);
    assert forall k :: k in a <==> k in b;
  }

  /** [a-f0-9] */
  predicate IsHex(c: char)
  {
    ('0' <= c <= '9') || ('a' <= c <= 'f')
  }

  /** The length of the longest run of hex characters starting at i. */
  function HexRun(s: string, i: nat): (n: nat)
    requires i <= |s|
    ensures i + n <= |s|
    ensures forall j :: i <= j < i + n ==> IsHex(s[j])
    ensures i + n == |s| || !IsHex(s[i + n])
    decreases |s| - i
  {
    if i < |s| && IsHex(s[i]) then 1 + HexRun(s, i + 1) else 0
  }

  /** The pattern /([a-f0-9]+)\.svg matches s at position p with group g. */
  predicate Matched(s: string, p: nat, g: string)
  {
    && p + 1 + |g| + 4 <= |s|
    && s[p] == '/'
    && g != []
    && (forall j :: 0 <= j < |g| ==> IsHex(g[j]))
    && s[p + 1..p + 1 + |g|] == g
    && s[p + 1 + |g|..p + 1 + |g| + 4] == ".svg"
  }

  /** The match starting at p, if any: since '.' is not a hex character, the group
      must be the whole hex run after the slash. */
  function MatchAt(s: string, p: nat): Option<string>
    requires p <= |s|
  {
    if p < |s| && s[p] == '/' then
      var n := HexRun(s, p + 1);
      if n > 0 && p + 1 + n + 4 <= |s| && s[p + 1 + n..p + 1 + n + 4] == ".svg"
      then Some(s[p + 1..p + 1 + n])
      else None
    else None
  }

  /** MatchAt finds exactly the regular expression's match at p: the group it
      returns matches, and when it returns None no group matches there. */
  lemma MatchAtSpec(s: string, p: nat)
    requires p <= |s|
    ensures MatchAt(s, p).Some? ==> Matched(s, p, MatchAt(s, p).value)
    ensures forall g :: Matched(s, p, g) ==> MatchAt(s, p) == Some(g)
  {
    forall g | Matched(s, p, g) ensures MatchAt(s, p) == Some(g) {
      var n := HexRun(s, p + 1);
      forall j | p + 1 <= j < p + 1 + |g| ensures IsHex(s[j]) {
        assert s[p + 1..p + 1 + |g|][j - (p + 1)] == g[j - (p + 1)];
      }
      assert s[p + 1 + |g|] == '.' by {
        assert s[p + 1 + |g|..p + 1 + |g| + 4][0] == '.';
      }
      assert n == |g|;
    }
  }

  /** The leftmost position at or after i where the pattern matches. */
  function FirstMatch(s: string, i: nat): (r: Option<nat>)
    requires i <= |s|
    ensures r.Some? ==> i <= r.value <= |s| && MatchAt(s, r.value).Some?
    ensures r.Some? ==> forall q :: i <= q < r.value ==> MatchAt(s, q).None?
    ensures r.None? ==> forall q :: i <= q <= |s| ==> MatchAt(s, q).None?
    decreases |s| - i
  {
    if MatchAt(s, i).Some? then Some(i)
    else if i == |s| then None
    else FirstMatch(s, i + 1)
  }

  /** re.search(r'/([a-f0-9]+)\.svg', path).group(1), or None without a match. */
  function EmojiCode(path: string): Option<string>
  {
    match FirstMatch(path, 0)
    case None => None
    case Some(p) => MatchAt(path, p)
  }

  /** The code is the group of the leftmost match: it is a non-empty hex string that
      follows a '/' and precedes ".svg" in the path, no match starts further left,
      and there is no code exactly when the pattern matches nowhere. */
  lemma EmojiCodeSpec(path: string)
    ensures EmojiCode(path).Some? ==>
      exists p :: 0 <= p <= |path| && Matched(path, p, EmojiCode(path).value)
        && forall q, g :: 0 <= q < p && Matched(path, q, g) ==> false
    ensures EmojiCode(path).None? <==> forall p, g :: 0 <= p <= |path| ==> !Matched(path, p, g)
  {
    match FirstMatch(path, 0)
    case None =>
      forall p, g | 0 <= p <= |path| ensures !Matched(path, p, g) {
        MatchAtSpec(path, p);
      }
    case Some(p) =>
      MatchAtSpec(path, p);
      forall q, g | 0 <= q < p && Matched(path, q, g) ensures false {
        MatchAtSpec(path, q);
      }
  }

  /** The search lands on p when p matches and nothing between i and p does. */
  lemma {:induction false} FirstMatchAt(s: string, i: nat, p: nat)
    requires i <= p <= |s| && MatchAt(s, p).Some?
    requires forall q :: i <= q < p ==> MatchAt(s, q).None?
    ensures FirstMatch(s, i) == Some(p)
    decreases p - i
  {
    if i < p {
      FirstMatchAt(s, i + 1, p);
    }
  }

  /** A twemoji icon path, as the reaction's children carry it. */
  const GrinningFacePath: string := "qrc:/assets/twemoji/svg/1f600.svg"

  /** The pattern matches at the last slash, with group "1f600". */
  lemma GrinningFaceMatch()
    ensures MatchAt(GrinningFacePath, 23) == Some("1f600")
  {
    var s := GrinningFacePath;
    assert |s| == 33 && s[23] == '/';
    assert s[24..29] == "1f600";
    assert s[29..33] == ".svg";
    assert Matched(s, 23, "1f600");
    MatchAtSpec(s, 23);
  }

  /** No slash occurs in [lo, hi) of the path, so no match starts there. */
  lemma NoSlashNoMatch(s: string, lo: nat, hi: nat)
    requires lo <= hi <= |s|
    requires forall q :: lo <= q < hi ==> s[q] != '/'
    ensures forall q :: lo <= q < hi ==> MatchAt(s, q).None?
  {
  }

  /** The slashes of the path that start no match: the one before "assets" is
      followed by a one-letter hex run not followed by ".svg", the ones before
      "twemoji" and "svg" by no hex at all. */
  lemma GrinningFaceInnerSlashes()
    ensures MatchAt(GrinningFacePath, 4).None?
    ensures MatchAt(GrinningFacePath, 11).None?
    ensures MatchAt(GrinningFacePath, 19).None?
  {
    var s := GrinningFacePath;
    assert |s| == 33;
    assert HexRun(s, 5) == 1 by { assert IsHex(s[5]) && !IsHex(s[6]); }
    assert s[6..10][0] == 's';
    assert !IsHex(s[12]);
    assert !IsHex(s[20]);
  }

  /** The path's segments between its slashes ("qrc:", "assets", "twemoji", "svg")
      hold no slash, so no match starts inside them. */
  lemma GrinningFaceSegments()
    ensures forall q :: 0 <= q < 4 ==> MatchAt(GrinningFacePath, q).None?
    ensures forall q :: 5 <= q < 11 ==> MatchAt(GrinningFacePath, q).None?
    ensures forall q :: 12 <= q < 19 ==> MatchAt(GrinningFacePath, q).None?
    ensures forall q :: 20 <= q < 23 ==> MatchAt(GrinningFacePath, q).None?
  {
    var s := GrinningFacePath;
    assert |s| == 33;
    forall q | 0 <= q < 4 ensures s[q] != '/' { }
    NoSlashNoMatch(s, 0, 4);
    forall q | 5 <= q < 11 ensures s[q] != '/' { }
    NoSlashNoMatch(s, 5, 11);
    forall q | 12 <= q < 19 ensures s[q] != '/' { }
    NoSlashNoMatch(s, 12, 19);
    forall q | 20 <= q < 23 ensures s[q] != '/' { }
    NoSlashNoMatch(s, 20, 23);
  }

  /** No earlier slash starts a match. */
  lemma GrinningFaceNoEarlier()
    ensures forall q :: 0 <= q < 23 ==> MatchAt(GrinningFacePath, q).None?
  {
    GrinningFaceSegments();
    GrinningFaceInnerSlashes();
  }

  /** The twemoji path of the grinning face gives its code point. */
  lemma GrinningFaceCode()
    ensures EmojiCode(GrinningFacePath) == Some("1f600")
  {
    GrinningFaceMatch();
    GrinningFaceNoEarlier();
    FirstMatchAt(GrinningFacePath, 0, 23);
  }

  /** A child of the reaction element: str(item.icon) / str(item.source) when the
      attribute exists. */
  datatype Child = Child(icon: Option<string>, source: Option<string>)

  /** The icon path read from a child: icon if present, else source, else nothing
      (represented by ""; an empty path is skipped like a missing one). */
  function IconPath(c: Child): string
  {
    if c.icon.Some? then c.icon.value
    else if c.source.Some? then c.source.value
    else ""
  }

  /** The code one child yields, if any. */
  function ChildCode(c: Child): Option<string>
  {
    if IconPath(c) == "" then None else EmojiCode(IconPath(c))
  }

  /** Why get_emoji_code_by_occurrence fails: waitForObject found no element, or no
      child yields a code (LookupError). */
  datatype EmojiError = ObjectNotFound | NoEmojiCode(occurrence: int)

  /** The emoji reaction QObject, whose real name add_reaction_to_message edits. */
  class EmojiReaction {
    var realName: RealName
    /** The real names clicked, in order. */
    var clicks: seq<RealName>

    constructor (realName: RealName)
      ensures this.realName == realName && clicks == []
    {
      this.realName := realName;
      clicks := [];
    }

    /** get_emoji_code_by_occurrence(occurrence): look up the element under the
        lookup name and return the code of the first child, in walk order, that
        yields one. `find` is the driver: the children of the element found for a
        name, or None when waitForObject fails. The real name is not changed. */
    method GetEmojiCodeByOccurrence(occurrence: int, find: RealName -> Option<seq<Child>>)
      returns (r: Result<string, EmojiError>)
      ensures var children := find(LookupName(realName, occurrence));
        && (children.None? ==> r == Err(ObjectNotFound))
        && (children.Some? && r.Ok? ==>
              exists k :: 0 <= k < |children.value| && ChildCode(children.value[k]) == Some(r.value)
                && forall j :: 0 <= j < k ==> ChildCode(children.value[j]).None?)
        && (children.Some? && r.Err? ==>
              r == Err(NoEmojiCode(occurrence))
              && forall j :: 0 <= j < |children.value| ==> ChildCode(children.value[j]).None?)
    {
      var tempRealName := realName;
      if occurrence > 1 {
        tempRealName := tempRealName[OccurrenceKey := NameInt(occurrence)];
      } else {
        tempRealName := tempRealName - {OccurrenceKey};
      }
      var found := find(tempRealName);
      if found.None? {
        return Err(ObjectNotFound);
      }
      var children := found.value;
      var i := 0;
      while i < |children|
        invariant 0 <= i <= |children|
        invariant forall j :: 0 <= j < i ==> ChildCode(children[j]).None?
      {
        var iconPath := IconPath(children[i]);
        if iconPath != "" {
          var code := EmojiCode(iconPath);
          if code.Some? {
            return Ok(code.value);
          }
        }
        i := i + 1;
      }
      return Err(NoEmojiCode(occurrence));
    }

    /** add_reaction_to_message(occurrence): set 'occurrence' in the real name itself
        when occurrence > 1 (an earlier value is otherwise kept), then click. */
    method AddReactionToMessage(occurrence: int)
      modifies this
      ensures occurrence > 1 ==> realName == old(realName)[OccurrenceKey := NameInt(occurrence)]
      ensures occurrence <= 1 ==> realName == old(realName)
      ensures clicks == old(clicks) + [realName]
    {
      if occurrence > 1 {
        realName := realName[OccurrenceKey := NameInt(occurrence)];
      }
      clicks := clicks + [realName];
    }
  }

  /** Reacting with the third emoji and then the first clicks the third one twice:
      the occurrence written by the first call persists into the second, while the
      code lookup for occurrence 1 uses a name without it. */
  method ReactThirdThenFirst(base: RealName) returns (first: RealName, second: RealName, lookup: RealName)
    ensures first == second
    ensures OccurrenceKey in second && second[OccurrenceKey] == NameInt(3)
    ensures OccurrenceKey !in lookup
  {
    var reaction := new EmojiReaction(base);
    reaction.AddReactionToMessage(3);
    reaction.AddReactionToMessage(1);
    first, second := reaction.clicks[0], reaction.clicks[1];
    lookup := LookupName(reaction.realName, 1);
  }
}

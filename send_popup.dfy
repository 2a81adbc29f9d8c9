/**
  The desktop end-to-end suite's Send modal page object: listing the assets or
  collectibles on a tab, choosing a network in the network selector by the end of
  its object name, and picking the recipient suggestion whose title is the
  address.

  The UI objects the driver finds, their attributes and what clicking them does
  are oracle answers given as parameters.
*/
module SendPopup {
  import opened Common

  /** A UI object, by identity. */
  datatype UiObject = UiObject(id: nat)

  /** get_assets_or_collectibles_list(tab): the assets the driver finds on 'Assets',
      the token list's children on 'Collectibles', nothing on any other tab. */
  method GetAssetsOrCollectiblesList(tab: string, assetItems: seq<UiObject>, tokenListChildren: seq<UiObject>)
    returns (list: seq<UiObject>)
    ensures tab == "Assets" ==> list == assetItems
    ensures tab == "Collectibles" ==> list == tokenListChildren
    ensures tab != "Assets" && tab != "Collectibles" ==> list == []
  {
    list := [];
    if tab == "Assets" {
      var i := 0;
      while i < |assetItems|
        invariant 0 <= i <= |assetItems| && list == assetItems[..i]
      {
        list := list + [assetItems[i]];
        i := i + 1;
      }
    } else if tab == "Collectibles" {
      var i := 0;
      while i < |tokenListChildren|
        invariant 0 <= i <= |tokenListChildren| && list == tokenListChildren[..i]
      {
        list := list + [tokenListChildren[i]];
        i := i + 1;
      }
    }
  }

  /** A network selector item: its objectName attribute, if it has one. */
  datatype NetworkItem = NetworkItem(objectName: Option<string>)

  /** str(getattr(item, 'objectName', '')): a missing name reads as "". */
  function ObjName(item: NetworkItem): string
  {
    if item.objectName.Some? then item.objectName.value else ""
  }

  /** The object names of the items, in order. */
  function ObjNames(items: seq<NetworkItem>): (names: seq<string>)
    ensures |names| == |items|
    ensures forall i :: 0 <= i < |items| ==> names[i] == ObjName(items[i])
  {
    if items == [] then [] else [ObjName(items[0])] + ObjNames(items[1..])
  }

  /** s.endswith(suffix) */
  predicate EndsWith(s: string, suffix: string)
  {
    |suffix| <= |s| && s[|s| - |suffix|..] == suffix
  }

  /** s.replace(' ', ''): s with every space removed, the other characters in order. */
  function RemoveSpaces(s: string): (r: string)
    ensures forall i :: 0 <= i < |r| ==> r[i] != ' '
    ensures |r| <= |s|
    ensures (forall i :: 0 <= i < |s| ==> s[i] != ' ') ==> r == s
  {
    if s == [] then []
    else (if s[0] == ' ' then [] else [s[0]]) + RemoveSpaces(s[1..])
  }

  /** replace(' ', '') works character by character: a space is dropped, any other
      character is kept, and the pieces of a string are squeezed independently, in
      order. Together these determine RemoveSpaces on every string. */
  lemma {:induction false} RemoveSpacesSpec(a: string, b: string, c: char)
    ensures RemoveSpaces([c]) == (if c == ' ' then [] else [c])
    ensures RemoveSpaces(a + b) == RemoveSpaces(a) + RemoveSpaces(b)
    decreases |a|
  {
    assert [c][1..] == [];
    if a == [] {
      assert a + b == b;
    } else {
      assert (a + b)[0] == a[0] && (a + b)[1..] == a[1..] + b;
      RemoveSpacesSpec(a[1..], b, c);
    }
  }

  /** The matching rule: the object name ends with the network name as written or
      with the network name with its spaces removed. */
  predicate Matches(objName: string, networkName: string)
  {
    EndsWith(objName, networkName) || EndsWith(objName, RemoveSpaces(networkName))
  }

  /** An object name of the form "<prefix><name without spaces>" matches the network
      name, and so does "<prefix><name>"; for a network name without spaces the rule
      is plain suffix matching. */
  lemma MatchesDelegateName(prefix: string, networkName: string)
    ensures Matches(prefix + RemoveSpaces(networkName), networkName)
    ensures Matches(prefix + networkName, networkName)
    ensures (forall i :: 0 <= i < |networkName| ==> networkName[i] != ' ') ==>
      forall o :: Matches(o, networkName) <==> EndsWith(o, networkName)
  {
    var squeezed := RemoveSpaces(networkName);
    assert (prefix + squeezed)[|prefix + squeezed| - |squeezed|..] == squeezed;
    assert (prefix + networkName)[|prefix + networkName| - |networkName|..] == networkName;
  }

  /** Why select_network fails: the assertion on the options, or the AssertionError
      naming the network and every object name scanned. */
  datatype SelectError = NoNetworkOptions | NetworkNotFound(networkName: string, available: seq<string>)

  /** select_network(network_name): scan the options in order, recording each object
      name, and click the first that matches. Ok(k) means options[k] was clicked. */
  method SelectNetwork(networkName: string, options: seq<NetworkItem>)
    returns (r: Result<nat, SelectError>, available: seq<string>)
    ensures options == [] ==> r == Err(NoNetworkOptions) && available == []
    ensures r.Ok? ==>
      && r.value < |options|
      && Matches(ObjName(options[r.value]), networkName)
      && (forall j :: 0 <= j < r.value ==> !Matches(ObjName(options[j]), networkName))
      && available == ObjNames(options[..r.value + 1])
    ensures options != [] && r.Err? ==>
      && r == Err(NetworkNotFound(networkName, available))
      && available == ObjNames(options)
      && (forall j :: 0 <= j < |options| ==> !Matches(ObjName(options[j]), networkName))
    ensures r.Ok? <==> exists j :: 0 <= j < |options| && Matches(ObjName(options[j]), networkName)
  {
    available := [];
    if options == [] {
      return Err(NoNetworkOptions), available;
    }
    var i := 0;
    while i < |options|
      invariant 0 <= i <= |options|
      invariant available == ObjNames(options[..i])
      invariant forall j :: 0 <= j < i ==> !Matches(ObjName(options[j]), networkName)
    {
      var objName := ObjName(options[i]);
      available := available + [objName];
      assert available == ObjNames(options[..i + 1]);
      if Matches(objName, networkName) {
        return Ok(i), available;
      }
      i := i + 1;
    }
    assert options[..i] == options;
    r := Err(NetworkNotFound(networkName, available));
  }

  /** Python's str.lower() on one character: ASCII capitals become small letters,
      everything else is kept. */
  function LowerChar(c: char): char
  {
    if 'A' <= c <= 'Z' then (c as int + 32) as char else c
  }

  /** Python's str.lower() on ASCII letters. */
  function Lower(s: string): (r: string)
    ensures |r| == |s|
    ensures forall i :: 0 <= i < |s| ==> r[i] == LowerChar(s[i])
  {
    if s == [] then [] else [LowerChar(s[0])] + Lower(s[1..])
  }

  /** A lower-cased character is no capital, and lower-casing it again keeps it. */
  lemma LowerCharIdempotent(c: char)
    ensures !('A' <= LowerChar(c) <= 'Z') && LowerChar(LowerChar(c)) == LowerChar(c)
  {
  }

  /** Comparing lower-cased strings is case-insensitive equality: lower-casing is
      idempotent, leaves no capital letter, and two strings compare equal exactly
      when they agree letter by letter up to case. */
  lemma {:induction false} LowerSpec(a: string, b: string)
    ensures Lower(Lower(a)) == Lower(a)
    ensures forall i :: 0 <= i < |a| ==> !('A' <= Lower(a)[i] <= 'Z')
    ensures Lower(a) == Lower(b) <==>
      |a| == |b| && forall i :: 0 <= i < |a| ==> LowerChar(a[i]) == LowerChar(b[i])
  {
    var la := Lower(a);
    forall i | 0 <= i < |a| ensures Lower(la)[i] == la[i] && !('A' <= la[i] <= 'Z') {
      LowerCharIdempotent(a[i]);
    }
    assert Lower(la) == la;
    if |a| == |b| && forall i :: 0 <= i < |a| ==> LowerChar(a[i]) == LowerChar(b[i]) {
      assert forall i :: 0 <= i < |a| ==> la[i] == Lower(b)[i];
    }
  }

  /** A delegate's title attribute: a string, missing (read as ""), or a read that raises. */
  datatype Title = TitleValue(s: string) | TitleMissing | TitleRaises

  /** str(getattr(delegate, 'title', '')).lower() for a title that can be read. */
  function TitleText(t: Title): string
    requires !t.TitleRaises?
  {
    Lower(if t.TitleValue? then t.s else "")
  }

  /** The delegate with this title is the address's one. */
  predicate TitleMatches(t: Title, address: string)
  {
    !t.TitleRaises? && TitleText(t) == Lower(address)
  }

  /** The suggestions panel's is_visible answer. */
  datatype Visibility = Visible | Hidden | VisibilityRaises

  /** The delegate lookup: the delegates found, or an exception. */
  datatype DelegateLookup = Delegates(titles: seq<Title>) | DelegatesRaise

  /** The scan reaches delegate k: none before it raises or matches. */
  predicate ScanReaches(titles: seq<Title>, address: string, k: nat)
    requires k <= |titles|
  {
    forall j :: 0 <= j < k ==> !titles[j].TitleRaises? && !TitleMatches(titles[j], address)
  }

  /** select_from_suggestions_if_shown(address): when the panel shows, click the first
      delegate whose lower-cased title equals the lower-cased address and return
      True; return False without a match and on any exception (a raising
      visibility check, lookup, title read or click). `clicked` is the delegate
      whose click was attempted. */
  method SelectFromSuggestions(address: string, panel: Visibility, lookup: DelegateLookup, clickRaises: bool)
    returns (selected: bool, clicked: Option<nat>)
    ensures clicked.Some? ==>
      && panel == Visible && lookup.Delegates?
      && clicked.value < |lookup.titles|
      && TitleMatches(lookup.titles[clicked.value], address)
      && ScanReaches(lookup.titles, address, clicked.value)
    ensures selected <==> clicked.Some? && !clickRaises
    ensures clicked.None? && panel == Visible && lookup.Delegates? ==>
      forall k :: 0 <= k < |lookup.titles| && ScanReaches(lookup.titles, address, k) ==>
        !TitleMatches(lookup.titles[k], address)
  {
    selected, clicked := false, None;
    if panel != Visible || lookup.DelegatesRaise? {
      return;
    }
    var titles := lookup.titles;
    var i := 0;
    while i < |titles|
      invariant 0 <= i <= |titles|
      invariant ScanReaches(titles, address, i)
    {
      if titles[i].TitleRaises? {
        // The exception ends the scan; no later delegate is reached.
        assert forall k :: 0 <= k <= i ==> !TitleMatches(titles[k], address);
        forall k | i < k <= |titles| ensures !ScanReaches(titles, address, k) {
          assert titles[i].TitleRaises?;
        }
        return;
      }
      if TitleMatches(titles[i], address) {
        clicked := Some(i);
        selected := !clickRaises;
        return;
      }
      i := i + 1;
    }
    assert forall k :: 0 <= k < |titles| ==> !TitleMatches(titles[k], address);
  }
}

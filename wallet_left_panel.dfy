/**
  The wallet's left panel page object in the mobile end-to-end suite: reading the
  account names shown in the account list, picking the row to long-press, and the
  decisions add_account and the account deletion flow take on what the UI shows.

  Driver lookups, attribute reads, taps and modals are oracle answers: a row is
  the pair of answers get_attribute gives for "content-desc" and "text", and the
  modal answers are fields of an environment record.
*/
module WalletLeftPanel {
  import opened Common

  /** The marker separating an account's name from its test id in a row descriptor. */
  const TidMarker: string := " [tid:"

  /** What row.get_attribute(name) does: return a string, return None, or raise. */
  datatype Attr = AttrValue(s: string) | AttrNone | AttrRaises

  /** An account row: its "content-desc" and "text" attributes. */
  datatype Row = Row(contentDesc: Attr, text: Attr)

  /** driver.find_elements for the account-row locator: the rows found, or an exception. */
  datatype Lookup = Found(rows: seq<Row>) | LookupRaised

  /** A Python string attribute value is truthy when it is a non-empty string. */
  predicate Truthy(a: Attr)
  {
    a.AttrValue? && a.s != ""
  }

  /** account_rows: the rows, or [] when the lookup raises. */
  function AccountRows(l: Lookup): seq<Row>
  {
    match l
    case Found(rows) => rows
    case LookupRaised => []
  }

  /** `pat` occurs in `s` at position i. */
  predicate OccursAt(s: string, pat: string, i: nat)
  {
    i + |pat| <= |s| && s[i..i + |pat|] == pat
  }

  /** The first position at or after i where `pat` occurs in `s`. */
  function FindFrom(s: string, pat: string, i: nat): (r: Option<nat>)
    requires i <= |s|
    ensures r.Some? ==> i <= r.value && OccursAt(s, pat, r.value)
    ensures r.Some? ==> forall j :: i <= j < r.value ==> !OccursAt(s, pat, j)
    ensures r.None? ==> forall j :: i <= j ==> !OccursAt(s, pat, j)
    decreases |s| - i
  {
    if i + |pat| > |s| then None
    else if s[i..i + |pat|] == pat then Some(i)
    else FindFrom(s, pat, i + 1)
  }

  /** s.split(sep, 1)[0]: the text before the first occurrence of sep, or all of s. */
  function SplitHead(s: string, sep: string): string
  {
    match FindFrom(s, sep, 0)
    case None => s
    case Some(k) => s[..k]
  }

  /** An occurrence inside a prefix is an occurrence in the whole string. */
  lemma OccursInPrefix(s: string, pat: string, k: nat, j: nat)
    requires k <= |s| && OccursAt(s[..k], pat, j)
    ensures OccursAt(s, pat, j)
  {
    assert s[..k][j..j + |pat|] == s[j..j + |pat|];
  }

  /** What the split's head is: a prefix of s free of the separator; it is all of s
      exactly when the separator does not occur, and otherwise s is the head, the
      separator and the rest. It is empty exactly when s is empty or starts with
      the separator. */
  lemma SplitHeadSpec(s: string, sep: string)
    requires sep != []
    ensures var head := SplitHead(s, sep);
      && head <= s
      && (forall j :: !OccursAt(head, sep, j))
      && (head == s <==> forall j :: !OccursAt(s, sep, j))
      && (head != s ==> s == head + sep + s[|head| + |sep|..])
      && (head == [] <==> s == [] || OccursAt(s, sep, 0))
  {
    var head := SplitHead(s, sep);
    match FindFrom(s, sep, 0)
    case None =>
    case Some(k) =>
      forall j: nat ensures !OccursAt(head, sep, j) {
        if OccursAt(head, sep, j) {
          OccursInPrefix(s, sep, k, j);
        }
      }
      assert s == s[..k] + s[k..k + |sep|] + s[k + |sep|..];
  }

  /** The row's descriptor, content-desc falling back to text and then to "";
      None when an attribute read raises. */
  function Descriptor(row: Row): Option<string>
  {
    if row.contentDesc.AttrRaises? then None
    else if Truthy(row.contentDesc) then Some(row.contentDesc.s)
    else if row.text.AttrRaises? then None
    else if Truthy(row.text) then Some(row.text.s)
    else Some("")
  }

  /** The name account_names extracts from one row, or None when the row is skipped. */
  function NameOf(row: Row): Option<string>
  {
    match Descriptor(row)
    case None => None
    case Some(desc) =>
      if desc == "" then None
      else
        var name := SplitHead(desc, TidMarker);
        if name == "" then None else Some(name)
  }

  /** What a row yields: a name exactly when its descriptor can be read, is
      non-empty and does not start with the marker; the name is then the
      descriptor's part before the first marker, carries no marker and is not
      empty. The descriptor is content-desc when that is non-empty, else text. */
  lemma NameOfSpec(row: Row)
    ensures NameOf(row).Some? <==>
      Descriptor(row).Some? && Descriptor(row).value != "" && !OccursAt(Descriptor(row).value, TidMarker, 0)
    ensures NameOf(row).Some? ==>
      var desc, name := Descriptor(row).value, NameOf(row).value;
      && name != "" && name <= desc
      && (forall j :: !OccursAt(name, TidMarker, j))
      && (name == desc || desc == name + TidMarker + desc[|name| + |TidMarker|..])
    ensures Truthy(row.contentDesc) ==> Descriptor(row) == Some(row.contentDesc.s)
    ensures !row.contentDesc.AttrRaises? && !Truthy(row.contentDesc) && !row.text.AttrRaises? ==>
      Descriptor(row) == Some(if row.text.AttrValue? then row.text.s else "")
  {
    if Descriptor(row).Some? && Descriptor(row).value != "" {
      SplitHeadSpec(Descriptor(row).value, TidMarker);
    }
  }

  /** What one row adds to the list of names. */
  function RowNames(row: Row): seq<string>
  {
    match NameOf(row)
    case Some(name) => [name]
    case None => []
  }

  /** The names of rows, in row order, at most one per row. */
  function NamesOf(rows: seq<Row>): seq<string>
  {
    if rows == [] then []
    else NamesOf(rows[..|rows| - 1]) + RowNames(rows[|rows| - 1])
  }

  /** Names of consecutive runs of rows concatenate. */
  lemma {:induction false} NamesOfAppend(a: seq<Row>, b: seq<Row>)
    ensures NamesOf(a + b) == NamesOf(a) + NamesOf(b)
    decreases |b|
  {
    if b != [] {
      var b' := b[..|b| - 1];
      assert (a + b)[..|a + b| - 1] == a + b';
      assert (a + b)[|a + b| - 1] == b[|b| - 1];
      NamesOfAppend(a, b');
      assert NamesOf(a + b) == NamesOf(a + b') + RowNames(b[|b| - 1]);
      assert NamesOf(b) == NamesOf(b') + RowNames(b[|b| - 1]);
    } else {
      assert a + b == a;
    }
  }

  /** The values present in a sequence of options, in order. */
  function Present(opts: seq<Option<string>>): seq<string>
  {
    if opts == [] then []
    else
      var last := opts[|opts| - 1];
      Present(opts[..|opts| - 1]) + (if last.Some? then [last.value] else [])
  }

  /** Every present value comes from some position, every position holding a value
      contributes it, and there are no more values than positions. */
  lemma {:induction false} PresentSpec(opts: seq<Option<string>>)
    ensures |Present(opts)| <= |opts|
    ensures forall n :: n in Present(opts) ==> exists i :: 0 <= i < |opts| && opts[i] == Some(n)
    ensures forall i :: 0 <= i < |opts| && opts[i].Some? ==> opts[i].value in Present(opts)
  {
    if opts != [] {
      var front := opts[..|opts| - 1];
      PresentSpec(front);
      forall n | n in Present(opts) ensures exists i :: 0 <= i < |opts| && opts[i] == Some(n) {
        if n in Present(front) {
          var i :| 0 <= i < |front| && front[i] == Some(n);
          assert opts[i] == front[i];
        } else {
          assert opts[|opts| - 1] == Some(n);
        }
      }
      forall i | 0 <= i < |opts| && opts[i].Some? ensures opts[i].value in Present(opts) {
        if i < |front| {
          assert opts[i] == front[i];
        }
      }
    }
  }

  /** What each row yields, in row order. */
  function RowResults(rows: seq<Row>): (r: seq<Option<string>>)
    ensures |r| == |rows|
    ensures forall i :: 0 <= i < |rows| ==> r[i] == NameOf(rows[i])
  {
    if rows == [] then [] else RowResults(rows[..|rows| - 1]) + [NameOf(rows[|rows| - 1])]
  }

  /** The listed names are the names the rows yield, in order. */
  lemma {:induction false} NamesOfPresent(rows: seq<Row>)
    ensures NamesOf(rows) == Present(RowResults(rows))
  {
    if rows != [] {
      var front := rows[..|rows| - 1];
      NamesOfPresent(front);
      assert RowResults(rows)[..|rows| - 1] == RowResults(front);
    }
  }

  /** Every listed name comes from some row; every row that yields a name
      contributes it; there are no more names than rows. */
  lemma NamesOfSpec(rows: seq<Row>)
    ensures |NamesOf(rows)| <= |rows|
    ensures forall n :: n in NamesOf(rows) ==> exists i :: 0 <= i < |rows| && NameOf(rows[i]) == Some(n)
    ensures forall i :: 0 <= i < |rows| && NameOf(rows[i]).Some? ==> NameOf(rows[i]).value in NamesOf(rows)
  {
    NamesOfPresent(rows);
    PresentSpec(RowResults(rows));
  }

  /** Every listed name has the name form: it is not empty and carries no marker. */
  lemma NamesOfForm(rows: seq<Row>)
    ensures forall n :: n in NamesOf(rows) ==> n != "" && forall j :: !OccursAt(n, TidMarker, j)
  {
    NamesOfSpec(rows);
    forall n | n in NamesOf(rows) ensures n != "" && forall j :: !OccursAt(n, TidMarker, j) {
      var i :| 0 <= i < |rows| && NameOf(rows[i]) == Some(n);
      NameOfSpec(rows[i]);
    }
  }

  /** A name extracted from one row can be recognised: a row whose content-desc is
      "<name> [tid:<id>]" for a name free of the marker lists exactly that name. */
  lemma TaggedRowName(name: string, id: string, text: Attr)
    requires name != "" && forall j :: !OccursAt(name, TidMarker, j)
    ensures NameOf(Row(AttrValue(name + TidMarker + id + "]"), text)) == Some(name)
  {
    var desc := name + TidMarker + id + "]";
    assert desc[|name|..|name| + |TidMarker|] == TidMarker;
    assert OccursAt(desc, TidMarker, |name|);
    forall j | 0 <= j < |name| ensures !OccursAt(desc, TidMarker, j) {
      if j + |TidMarker| <= |name| {
        assert desc[j..j + |TidMarker|] == name[j..j + |TidMarker|];
        assert !OccursAt(name, TidMarker, j);
      } else if j + |TidMarker| <= |desc| {
        // The occurrence would straddle the end of the name, putting the marker's
        // leading space at an inner position of the marker, where none is.
        var o := |name| - j;
        assert desc[j..j + |TidMarker|][o] == desc[|name|] == ' ';
        assert TidMarker[o] != ' ';
        assert desc[j..j + |TidMarker|] != TidMarker;
      }
    }
    var k := FindFrom(desc, TidMarker, 0);
    assert k == Some(|name|);
    assert SplitHead(desc, TidMarker) == name;
  }

  /** account_names: read each row's descriptor (a raising read skips the row),
      keep the part before the marker when both are non-empty. */
  method AccountNames(lookup: Lookup) returns (names: seq<string>)
    ensures names == NamesOf(AccountRows(lookup))
    ensures lookup.LookupRaised? ==> names == []
    ensures |names| <= |AccountRows(lookup)|
  {
    var rows := AccountRows(lookup);
    names := [];
    var i := 0;
    while i < |rows|
      invariant 0 <= i <= |rows|
      invariant names == NamesOf(rows[..i])
    {
      var desc := Descriptor(rows[i]);
      if desc.Some? && desc.value != "" {
        var name := SplitHead(desc.value, TidMarker);
        if name != "" {
          names := names + [name];
        }
      }
      assert rows[..i + 1][..i] == rows[..i];
      i := i + 1;
    }
    assert rows[..i] == rows;
    NamesOfSpec(rows);
  }

  /** Python's reading of a possibly negative index into a list of length len. */
  function PyIndex(i: int, len: nat): int
  {
    if i < 0 then len + i else i
  }

  /** The row long_press_row presses: index when it is in range, otherwise rows[-1]. */
  function RowIndex(index: int, len: nat): (k: int)
    requires len > 0
    ensures 0 <= k < len
    ensures 0 <= index < len ==> k == index
    ensures !(0 <= index < len) ==> k == len - 1
  {
    PyIndex(if 0 <= index && index < len then index else -1, len)
  }

  /** What long_press_element does with the chosen row. */
  datatype PressOutcome = PressReturned(ok: bool) | PressRaised

  /** The result of long_press_row: the row pressed (if any) and the returned flag. */
  datatype Press = Press(pressedRow: Option<nat>, result: bool)

  /** long_press_row(index): False without rows; otherwise press the chosen row and
      return its result, False when the press raises. */
  function LongPressRow(lookup: Lookup, index: int, press: PressOutcome): (p: Press)
    ensures AccountRows(lookup) == [] ==> p == Press(None, false)
    ensures AccountRows(lookup) != [] ==> p.pressedRow.Some? && 0 <= p.pressedRow.value < |AccountRows(lookup)|
    ensures AccountRows(lookup) != [] && 0 <= index < |AccountRows(lookup)| ==> p.pressedRow == Some(index)
    ensures AccountRows(lookup) != [] && !(0 <= index < |AccountRows(lookup)|) ==>
      p.pressedRow == Some(|AccountRows(lookup)| - 1)
    ensures p.result <==> AccountRows(lookup) != [] && press == PressReturned(true)
  {
    var rows := AccountRows(lookup);
    if rows == [] then Press(None, false)
    else
      var k := RowIndex(index, |rows|);
      Press(Some(k), press == PressReturned(true))
  }

  /** `not auth_password` in Python: no password, or the empty one. */
  predicate PasswordGiven(password: Option<string>)
  {
    password.Some? && password.value != ""
  }

  /** The UI's answers along add_account: the modal opened, the name was set, the
      authentication prompt appeared, the modal hid, the password was accepted. */
  datatype AddAccountEnv = AddAccountEnv(
    modalOpens: bool, nameAccepted: bool, authPromptShown: bool, modalHides: bool, authAccepts: bool)

  /** Why a flow returned False (one per logged error). */
  datatype Failure = ModalNotOpened | NameNotSet | ModalDidNotClose | NoPassword | AuthFailed | ConfirmFailed

  /** add_account(name, auth_password): Ok(()) for True, Err(reason) for False. */
  function AddAccount(env: AddAccountEnv, password: Option<string>): (r: Result<(), Failure>)
    ensures r.Ok? <==>
      env.modalOpens && env.nameAccepted
      && (if env.authPromptShown then PasswordGiven(password) && env.authAccepts else env.modalHides)
    ensures r == Err(NoPassword) <==>
      env.modalOpens && env.nameAccepted && env.authPromptShown && !PasswordGiven(password)
    ensures env.modalOpens && env.nameAccepted && !env.authPromptShown ==>
      (r.Ok? || r == Err(ModalDidNotClose))
    ensures r == Err(AuthFailed) ==> PasswordGiven(password) && env.authPromptShown
  {
    if !env.modalOpens then Err(ModalNotOpened)
    else if !env.nameAccepted then Err(NameNotSet)
    else if !env.authPromptShown then
      if !env.modalHides then Err(ModalDidNotClose) else Ok(())
    else if !PasswordGiven(password) then Err(NoPassword)
    else if !env.authAccepts then Err(AuthFailed)
    else Ok(())
  }

  /** The UI's answers along _complete_account_deletion. */
  datatype DeletionEnv = DeletionEnv(
    confirmationShown: bool, confirmAccepted: bool, authPromptShown: bool, authAccepts: bool)

  /** _complete_account_deletion(auth_password): the confirmation modal and the
      authentication prompt each only matter when they appear. */
  function CompleteAccountDeletion(env: DeletionEnv, password: Option<string>): (r: Result<(), Failure>)
    ensures r.Ok? <==>
      (env.confirmationShown ==> env.confirmAccepted)
      && (env.authPromptShown ==> PasswordGiven(password) && env.authAccepts)
    ensures r == Err(ConfirmFailed) <==> env.confirmationShown && !env.confirmAccepted
    ensures r == Err(NoPassword) <==>
      (env.confirmationShown ==> env.confirmAccepted) && env.authPromptShown && !PasswordGiven(password)
    ensures !env.confirmationShown && !env.authPromptShown ==> r.Ok?
  {
    if env.confirmationShown && !env.confirmAccepted then Err(ConfirmFailed)
    else if env.authPromptShown && !PasswordGiven(password) then Err(NoPassword)
    else if env.authPromptShown && !env.authAccepts then Err(AuthFailed)
    else Ok(())
  }
}

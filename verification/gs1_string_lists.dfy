/** The string-list commands of reborn_protocol/gs1/interp.py: a variable holds the encoded
    text, and every command decodes it, edits the list and encodes it again. */
module Gs1StringLists {
  import opened Csv

  /** What the variable holds: a string, or anything else (a number, an array, nothing). */
  datatype Stored = Text(text: string) | NotText

  datatype Command =
    | AddString(s: string)
    | DeleteString(k: int)
    | InsertString(k: int, s: string)
    | RemoveString(s: string)
    | ReplaceString(k: int, s: string)

  /** `_string_list` */
  function ItemsOf(cur: Stored): seq<string> { if cur.Text? then Items(cur.text, false) else [] }

  function AtLeastZero(k: int): nat { if k < 0 then 0 else k }

  function Without(items: seq<string>, s: string): seq<string> {
    if items == [] then []
    else (if items[0] == s then [] else [items[0]]) + Without(items[1..], s)
  }

  /** The edit itself, on a list. */
  function Edit(c: Command, items: seq<string>): seq<string> {
    match c
    case AddString(s) => items + [s]
    case DeleteString(k) =>
      var k := AtLeastZero(k);
      if k < |items| then items[..k] + items[k + 1..] else items
    case InsertString(k, s) =>
      var k := if AtLeastZero(k) < |items| then AtLeastZero(k) else |items|;
      items[..k] + [s] + items[k..]
    case RemoveString(s) => Without(items, s)
    case ReplaceString(k, s) =>
      var k := AtLeastZero(k);
      if k < |items| then items[k := s] else items + [s]
  }

  /** Whether the command stores anything. */
  predicate Stores(c: Command, cur: Stored) {
    (c.DeleteString? ==> AtLeastZero(c.k) < |ItemsOf(cur)|)
    && (c.RemoveString? ==> cur.Text? && cur.text != "")
  }

  function After(c: Command, cur: Stored): Stored {
    if Stores(c, cur) then Text(Joined(Edit(c, ItemsOf(cur)), false)) else cur
  }

  /** The comprehension of `removestring`. */
  method Filtered(current: seq<string>, s: string) returns (items: seq<string>)
    ensures items == Without(current, s)
  {
    items := [];
    assert current[0..] == current;
    for k := 0 to |current|
      invariant items + Without(current[k..], s) == Without(current, s)
    {
      assert current[k..][1..] == current[k + 1..];
      if current[k] != s {
        items := items + [current[k]];
      }
    }
  }

  class StringVariable {
    var cur: Stored

    constructor (cur: Stored)
      ensures this.cur == cur
    {
      this.cur := cur;
    }

    method StringList() returns (items: seq<string>)
      ensures items == ItemsOf(cur)
    {
      if cur.Text? {
        items := Split(cur.text, false);
      } else {
        items := [];
      }
    }

    method Store(items: seq<string>)
      modifies this
      ensures cur == Text(Joined(items, false))
    {
      var text := Join(items, false);
      cur := Text(text);
    }

    method Add(s: string)
      modifies this
      ensures cur == After(AddString(s), old(cur))
    {
      var items := StringList();
      Store(items + [s]);
    }

    method Delete(k: int)
      modifies this
      ensures cur == After(DeleteString(k), old(cur))
    {
      var items := StringList();
      var index := AtLeastZero(k);
      if index < |items| {
        Store(items[..index] + items[index + 1..]);
      }
    }

    method Insert(k: int, s: string)
      modifies this
      ensures cur == After(InsertString(k, s), old(cur))
    {
      var items := StringList();
      var index := AtLeastZero(k);
      index := if index < |items| then index else |items|;
      Store(items[..index] + [s] + items[index..]);
    }

    method Remove(s: string)
      modifies this
      ensures cur == After(RemoveString(s), old(cur))
    {
      if !cur.Text? || cur.text == "" {
        return;
      }
      var current := StringList();
      var items := Filtered(current, s);
      Store(items);
    }

    method Replace(k: int, s: string)
      modifies this
      ensures cur == After(ReplaceString(k, s), old(cur))
    {
      var items := StringList();
      var index := AtLeastZero(k);
      if index >= |items| {
        Store(items + [s]);
      } else {
        Store(items[index := s]);
      }
    }

    /** The branches of `_exec_var_command`. */
    method Exec(c: Command)
      modifies this
      ensures cur == After(c, old(cur))
    {
      match c
      case AddString(s) => Add(s);
      case DeleteString(k) => Delete(k);
      case InsertString(k, s) => Insert(k, s);
      case RemoveString(s) => Remove(s);
      case ReplaceString(k, s) => Replace(k, s);
    }
  }

  // ----------------------------------------------------------- refinement

  /** The edit as the list stored in a text sees it: a stored list loses one final empty
      string, and deleting past the end stores nothing. */
  function EditTrimmed(c: Command, items: seq<string>): seq<string> {
    if c.DeleteString? && AtLeastZero(c.k) >= |items| then items else Trimmed(Edit(c, items))
  }

  /** Each command does to the list what its name says, up to that dropped empty. */
  lemma CommandRefinesEdit(c: Command, cur: Stored)
    ensures ItemsOf(After(c, cur)) == EditTrimmed(c, ItemsOf(cur))
  {
    JoinReadsBack(Edit(c, ItemsOf(cur)), false);
  }

  /** When it is exactly the edit. */
  lemma CommandIsEditIff(c: Command, cur: Stored)
    ensures var edited := Edit(c, ItemsOf(cur));
            ItemsOf(After(c, cur)) == edited <==>
              (edited != [] && edited[|edited| - 1] == "" ==>
                 c.DeleteString? && AtLeastZero(c.k) >= |ItemsOf(cur)|)
  {
    CommandRefinesEdit(c, cur);
  }

  function Run(cs: seq<Command>, cur: Stored): Stored {
    if cs == [] then cur else Run(cs[1..], After(cs[0], cur))
  }

  function EditsTrimmed(cs: seq<Command>, items: seq<string>): seq<string> {
    if cs == [] then items else EditsTrimmed(cs[1..], EditTrimmed(cs[0], items))
  }

  function Edits(cs: seq<Command>, items: seq<string>): seq<string> {
    if cs == [] then items else Edits(cs[1..], Edit(cs[0], items))
  }

  /** Over any run of commands on any stored value, the list in the text follows the list
      machine. */
  lemma {:induction false} RunRefinesEdits(cs: seq<Command>, cur: Stored)
    ensures ItemsOf(Run(cs, cur)) == EditsTrimmed(cs, ItemsOf(cur))
    decreases |cs|
  {
    if cs != [] {
      CommandRefinesEdit(cs[0], cur);
      RunRefinesEdits(cs[1..], After(cs[0], cur));
    }
  }

  predicate NoEmpty(items: seq<string>) { forall k :: 0 <= k < |items| ==> items[k] != "" }

  predicate PutsNoEmpty(cs: seq<Command>) {
    forall k :: 0 <= k < |cs| ==>
      (cs[k].AddString? || cs[k].InsertString? || cs[k].ReplaceString? ==> cs[k].s != "")
  }

  lemma {:induction false} WithoutKeeps(items: seq<string>, s: string)
    requires NoEmpty(items)
    ensures NoEmpty(Without(items, s))
  {
    if items != [] { WithoutKeeps(items[1..], s); }
  }

  /** A list that starts without empty strings and is never given one goes through any run
      of commands exactly as a plain list would. */
  lemma {:induction false} RunIsEdits(cs: seq<Command>, cur: Stored)
    requires NoEmpty(ItemsOf(cur)) && PutsNoEmpty(cs)
    ensures ItemsOf(Run(cs, cur)) == Edits(cs, ItemsOf(cur))
    ensures NoEmpty(ItemsOf(Run(cs, cur)))
    decreases |cs|
  {
    if cs != [] {
      if cs[0].RemoveString? { WithoutKeeps(ItemsOf(cur), cs[0].s); }
      assert NoEmpty(Edit(cs[0], ItemsOf(cur)));
      CommandRefinesEdit(cs[0], cur);
      RunIsEdits(cs[1..], After(cs[0], cur));
    }
  }

  /** Where an insertion puts its string: a place before the list is its start, one behind it
      its end. Whatever stood there and behind moves up by one; deleting there undoes it. */
  lemma InsertThenDelete(k: int, s: string, items: seq<string>)
    ensures var put := Edit(InsertString(k, s), items);
            var at := if k < 0 then 0 else if k <= |items| then k else |items|;
            && |put| == |items| + 1 && put[at] == s
            && (forall j :: 0 <= j < at ==> put[j] == items[j])
            && (forall j :: at <= j < |items| ==> put[j + 1] == items[j])
            && Edit(DeleteString(at), put) == items && (k < 0 ==> Edit(DeleteString(k), put) == items)
  {
    var at := if k < 0 then 0 else if k <= |items| then k else |items|;
    var put := Edit(InsertString(k, s), items);
    assert put == items[..at] + [s] + items[at..];
    assert Edit(DeleteString(at), put) == put[..at] + put[at + 1..] == items[..at] + items[at..] == items;
  }

  /** Replacing is deleting and inserting in the same place; behind the list it is adding, and
      deleting there does nothing. */
  lemma ReplaceIsDeleteThenInsert(k: int, s: string, items: seq<string>)
    ensures k < |items| && items != [] ==>
              Edit(ReplaceString(k, s), items) == Edit(InsertString(k, s), Edit(DeleteString(k), items))
    ensures k >= |items| ==> Edit(ReplaceString(k, s), items) == Edit(AddString(s), items)
    ensures k >= |items| ==> Edit(DeleteString(k), items) == items
    ensures Edit(AddString(s), items) == Edit(InsertString(|items|, s), items)
  {
    if k < |items| && items != [] {
      var at := if k < 0 then 0 else k;
      var cut := Edit(DeleteString(k), items);
      assert cut == items[..at] + items[at + 1..];
      assert cut[..at] == items[..at] && cut[at..] == items[at + 1..];
    }
    assert items[..|items|] == items && items[|items|..] == [];
  }

  /** Removing takes out every copy of the string and leaves the others in their order. */
  lemma {:induction false} RemoveTakesAll(s: string, items: seq<string>, more: seq<string>)
    ensures s !in Edit(RemoveString(s), items)
    ensures forall x :: x in items && x != s ==> x in Edit(RemoveString(s), items)
    ensures Edit(RemoveString(s), items + more)
            == Edit(RemoveString(s), items) + Edit(RemoveString(s), more)
    ensures s !in items ==> Edit(RemoveString(s), items) == items
    decreases |items|
  {
    if items == [] {
      assert items + more == more;
    } else {
      assert (items + more)[1..] == items[1..] + more;
      RemoveTakesAll(s, items[1..], more);
      assert items == [items[0]] + items[1..];
    }
  }
}

/**
 * The text of a Fortran namelist file as both generators write it: groups `&name`, one
 * `key = value,` line per entry (optionally followed by a `! comment`), a closing `/`, and
 * an empty line between groups (ISO/IEC 1539-1:2010, section 10.11, namelist formatting).
 */
module Namelist {
  import opened Wrappers
  import JsValue

  /** One `key = value,` line; the value is already rendered. */
  datatype Entry = Entry(key: string, value: string, comment: Option<string>)

  datatype Group = Group(name: string, entries: seq<Entry>)

  /** The text of an entry line without its newline. */
  function EntryLine(e: Entry): (line: string)
    ensures |line| > 0 && line[0] == ' '
  {
    " " + e.key + " = " + e.value + "," + (match e.comment case Some(c) => " ! " + c case None => "")
  }

  function EntryLines(es: seq<Entry>): (lines: seq<string>)
    ensures |lines| == |es|
    ensures forall i :: 0 <= i < |es| ==> lines[i] == EntryLine(es[i])
  {
    if es == [] then [] else [EntryLine(es[0])] + EntryLines(es[1..])
  }

  function Header(g: Group): string
  {
    "&" + g.name
  }

  /** A group's lines: its header, its entries, and the closing slash. */
  function GroupLines(g: Group): (lines: seq<string>)
    ensures |lines| == |g.entries| + 2
  {
    [Header(g)] + EntryLines(g.entries) + ["/"]
  }

  /** The lines of a file: the groups in order with an empty line between neighbours. */
  function DocLines(gs: seq<Group>): seq<string>
  {
    if gs == [] then []
    else if |gs| == 1 then GroupLines(gs[0])
    else GroupLines(gs[0]) + [""] + DocLines(gs[1..])
  }

  /** The lines, each ended by a newline. */
  function Unlines(lines: seq<string>): string
  {
    if lines == [] then "" else lines[0] + "\n" + Unlines(lines[1..])
  }

  /** The text of a namelist file. */
  function Text(gs: seq<Group>): string
  {
    Unlines(DocLines(gs))
  }

  /** Python's `text.splitlines()` for text whose lines end in "\n". */
  function ReadLines(s: string): seq<string>
    decreases |s|
  {
    match JsValue.Find(s, '\n')
    case None => if s == [] then [] else [s]
    case Some(i) => [s[..i]] + ReadLines(s[i + 1..])
  }

  /** The group names that a reader finds: the lines that open with '&'. */
  function Headers(lines: seq<string>): seq<string>
  {
    if lines == [] then []
    else if |lines[0]| > 0 && lines[0][0] == '&' then [lines[0][1..]] + Headers(lines[1..])
    else Headers(lines[1..])
  }

  /** How many lines are exactly "/", the end of a group. */
  function Closers(lines: seq<string>): nat
  {
    if lines == [] then 0 else (if lines[0] == "/" then 1 else 0) + Closers(lines[1..])
  }

  function Names(gs: seq<Group>): seq<string>
  {
    if gs == [] then [] else [gs[0].name] + Names(gs[1..])
  }

  /** A line that holds no newline. */
  predicate OneLine(s: string)
  {
    forall j :: 0 <= j < |s| ==> s[j] != '\n'
  }

  /** Every entry's key, value and comment fit on one line, and so does every group name. */
  predicate Flat(gs: seq<Group>)
  {
    forall i :: 0 <= i < |gs| ==> OneLine(gs[i].name) && FlatEntries(gs[i].entries)
  }

  predicate FlatEntries(es: seq<Entry>)
  {
    forall j :: 0 <= j < |es| ==>
      OneLine(es[j].key) && OneLine(es[j].value) && (es[j].comment.Some? ==> OneLine(es[j].comment.value))
  }

  // ----- properties -----

  lemma {:induction false} HeadersAppend(a: seq<string>, b: seq<string>)
    ensures Headers(a + b) == Headers(a) + Headers(b)
  {
    if a != [] {
      assert (a + b)[1..] == a[1..] + b;
      HeadersAppend(a[1..], b);
    } else {
      assert a + b == b;
    }
  }

  lemma {:induction false} ClosersAppend(a: seq<string>, b: seq<string>)
    ensures Closers(a + b) == Closers(a) + Closers(b)
  {
    if a != [] {
      assert (a + b)[1..] == a[1..] + b;
      ClosersAppend(a[1..], b);
    } else {
      assert a + b == b;
    }
  }

  /** Entry lines open with a space: none is a header or a closer. */
  lemma {:induction false} EntryLinesPlain(es: seq<Entry>)
    ensures Headers(EntryLines(es)) == [] && Closers(EntryLines(es)) == 0
  {
    if es != [] {
      EntryLinesPlain(es[1..]);
    }
  }

  /** A group contributes its own name as its one header and one closing slash. */
  lemma GroupShape(g: Group)
    ensures Headers(GroupLines(g)) == [g.name] && Closers(GroupLines(g)) == 1
  {
    var es := EntryLines(g.entries);
    EntryLinesPlain(g.entries);
    HeadersAppend([Header(g)] + es, ["/"]);
    HeadersAppend([Header(g)], es);
    ClosersAppend([Header(g)] + es, ["/"]);
    ClosersAppend([Header(g)], es);
    assert Header(g)[1..] == g.name;
  }

  /**
   * The groups of a file are opened in the order given, each by its own name, and the file
   * holds exactly one closing slash per group.
   */
  lemma {:induction false} GroupsInOrder(gs: seq<Group>)
    ensures Headers(DocLines(gs)) == Names(gs)
    ensures Closers(DocLines(gs)) == |gs|
  {
    if gs != [] {
      GroupShape(gs[0]);
      if |gs| > 1 {
        GroupsInOrder(gs[1..]);
        HeadersAppend(GroupLines(gs[0]) + [""], DocLines(gs[1..]));
        HeadersAppend(GroupLines(gs[0]), [""]);
        ClosersAppend(GroupLines(gs[0]) + [""], DocLines(gs[1..]));
        ClosersAppend(GroupLines(gs[0]), [""]);
      }
    }
  }

  /** Lines without newlines are read back from their text. */
  lemma {:induction false} ReadUnlines(lines: seq<string>)
    requires forall i :: 0 <= i < |lines| ==> OneLine(lines[i])
    ensures ReadLines(Unlines(lines)) == lines
  {
    if lines != [] {
      var rest := Unlines(lines[1..]);
      JsValue.FindAfter(lines[0], '\n', rest);
      var s := lines[0] + "\n" + rest;
      assert s[..|lines[0]|] == lines[0] && s[|lines[0]| + 1..] == rest;
      ReadUnlines(lines[1..]);
    }
  }

  /** A file's lines are one-liners when its names, keys, values and comments are. */
  lemma {:induction false} DocLinesFlat(gs: seq<Group>)
    requires Flat(gs)
    ensures forall i :: 0 <= i < |DocLines(gs)| ==> OneLine(DocLines(gs)[i])
  {
    if gs != [] {
      var g := gs[0];
      assert OneLine(g.name);
      forall j | 0 <= j < |g.entries|
        ensures OneLine(EntryLine(g.entries[j]))
      {
        assert FlatEntries(g.entries);
      }
      assert forall i :: 0 <= i < |GroupLines(g)| ==> OneLine(GroupLines(g)[i]);
      if |gs| > 1 {
        assert Flat(gs[1..]) by {
          forall i | 0 <= i < |gs| - 1
            ensures gs[1..][i] == gs[i + 1]
          {
          }
        }
        DocLinesFlat(gs[1..]);
      }
    }
  }

  /** Reading the lines of a file's text gives back the groups' lines. */
  lemma TextLines(gs: seq<Group>)
    requires Flat(gs)
    ensures ReadLines(Text(gs)) == DocLines(gs)
  {
    DocLinesFlat(gs);
    ReadUnlines(DocLines(gs));
  }

  /** The headers a reader of the text finds are the group names in order. */
  lemma TextGroupsInOrder(gs: seq<Group>)
    requires Flat(gs)
    ensures Headers(ReadLines(Text(gs))) == Names(gs)
    ensures Closers(ReadLines(Text(gs))) == |gs|
  {
    TextLines(gs);
    GroupsInOrder(gs);
  }
}

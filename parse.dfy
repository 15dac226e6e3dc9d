/**
  Reading query text back.  The renderer keeps everything about a tree
  except its schema: a set renders as nothing exactly when it is scoped to
  a scalar, so what the text determines is a `Shape`.  The reader below is
  the partner of `RenderSet`: on a well-formed tree (GraphQL names,
  argument keys that are names, scalar-scoped sets that are empty) reading
  the rendering gives back the tree's shape, so two well-formed trees with
  the same text have the same shape.
 */
module Parse {
  import opened Errors
  import opened Json
  import opened Format
  import opened Schema
  import opened Tree
  import Build

  /** A selection set as the query text carries it: no set at all, or a braced list of items. */
  datatype Shape = Leaf | Node(items: seq<Item>)

  datatype Item =
    | FieldItem(name: string, args: Args, child: Shape)
    | FragmentItem(typeName: string, child: Shape)

  /** The part of a tree that survives rendering. */
  function Erase(s: SelSet): (r: Shape)
    ensures r == Leaf <==> s.typeSchema.kind == Scalar
    decreases s, 2
  {
    if s.typeSchema.kind == Scalar then Leaf else Node(EraseEach(s.selections))
  }

  function EraseEach(sels: seq<Selection>): (r: seq<Item>)
    ensures |r| == |sels|
    decreases sels, 1
  {
    if sels == [] then [] else [EraseItem(sels[0])] + EraseEach(sels[1..])
  }

  function EraseItem(sel: Selection): Item
    decreases sel, 0
  {
    match sel
    case Field(name, args, child) => FieldItem(name, args, Erase(child))
    case InlineFragment(typeName, child) => FragmentItem(typeName, Erase(child))
  }

  /** Names that are GraphQL names, argument keys that are names, and nothing inside scalar-scoped sets. */
  predicate WellFormed(s: SelSet)
    decreases s, 1
  {
    && (s.typeSchema.kind == Scalar ==> s.selections == [])
    && forall k :: 0 <= k < |s.selections| ==> WellFormedSelection(s.selections[k])
  }

  predicate WellFormedSelection(sel: Selection)
    decreases sel, 0
  {
    match sel
    case Field(name, args, child) => IsName(name) && KeysAreNames(args) && WellFormed(child)
    case InlineFragment(typeName, child) => IsName(typeName) && WellFormed(child)
  }

  // ---------------------------------------------------------------- the reader

  /** A braced selection list at the front of `s`, or none when `s` does not open one. */
  function ReadSet(s: string): (r: Option<(Shape, string)>)
    ensures r.Some? ==> |r.value.1| <= |s|
    decreases |s|, 2
  {
    if !StartsWith(s, " { ") then Some((Leaf, s))
    else if StartsWith(s[3..], " }") then Some((Node([]), s[5..]))
    else
      match ReadItems(s[3..])
      case None => None
      case Some((items, rest)) => Some((Node(items), rest))
  }

  /** Items separated by `, ` up to and including the closing ` }`. */
  function ReadItems(s: string): (r: Option<(seq<Item>, string)>)
    ensures r.Some? ==> |r.value.1| < |s|
    decreases |s|, 1
  {
    match ReadItem(s)
    case None => None
    case Some((item, rest)) =>
      if StartsWith(rest, ", ") then
        match ReadItems(rest[2..])
        case None => None
        case Some((more, after)) => Some(([item] + more, after))
      else if StartsWith(rest, " }") then Some(([item], rest[2..]))
      else None
  }

  /** `... on Type` and its set, or a field name, its arguments and its set. */
  function ReadItem(s: string): (r: Option<(Item, string)>)
    ensures r.Some? ==> |r.value.1| < |s|
    decreases |s|, 0
  {
    if StartsWith(s, "... on ") then
      match ReadName(s[7..])
      case None => None
      case Some((typeName, rest)) =>
        match ReadSet(rest)
        case None => None
        case Some((child, after)) => Some((FragmentItem(typeName, child), after))
    else
      match ReadName(s)
      case None => None
      case Some((name, afterName)) =>
        match ReadArgs(afterName)
        case None => None
        case Some((args, afterArgs)) =>
          match ReadSet(afterArgs)
          case None => None
          case Some((child, after)) => Some((FieldItem(name, args, child), after))
  }

  /** `query` followed by the root set and nothing else. */
  function ReadQuery(text: string): (r: Option<Shape>)
  {
    if !StartsWith(text, "query") then None
    else
      match ReadSet(text[5..])
      case Some((root, rest)) => if rest == [] then Some(root) else None
      case None => None
  }

  // ---------------------------------------------------------------- reading a rendering

  /** What may follow an item inside a list: the separator or the closing brace. */
  predicate ClosesItem(rest: string)
  {
    StartsWith(rest, ", ") || StartsWith(rest, " }")
  }

  /** A rendered selection starts with a name character or the fragment's dots, never a space. */
  lemma RenderedItemStart(sel: Selection)
    requires WellFormedSelection(sel)
    ensures |RenderSelection(sel)| > 0 && RenderSelection(sel)[0] != ' '
  {
    match sel
    case Field(name, args, child) =>
      assert RenderSelection(sel)[0] == name[0];
    case InlineFragment(typeName, child) =>
  }

  lemma {:induction false} ReadSetOf(s: SelSet, rest: string)
    requires WellFormed(s) && !StartsWith(rest, " { ")
    ensures ReadSet(RenderSet(s) + rest) == Some((Erase(s), rest))
    decreases s, 2
  {
    var text := RenderSet(s) + rest;
    if s.typeSchema.kind == Scalar {
      assert text == rest;
    } else if s.selections == [] {
      assert text == " {  }" + rest;
      assert text[3..][..2] == " }" && text[5..] == rest;
    } else {
      var body := Join(RenderEach(s.selections)) + " }" + rest;
      assert text == " { " + body;
      assert text[..3] == " { " && text[3..] == body;
      RenderEachAt(s.selections, 0);
      RenderedItemStart(s.selections[0]);
      JoinStart(RenderEach(s.selections));
      assert body[0] != ' ';
      ReadItemsOf(s.selections, rest);
    }
  }

  /** A join starts with its first part when that part is not empty. */
  lemma JoinStart(parts: seq<string>)
    requires |parts| > 0 && |parts[0]| > 0
    ensures |Join(parts)| > 0 && Join(parts)[0] == parts[0][0]
  {
  }

  /** What may follow an item opens neither a set nor an argument list, and does not continue a name. */
  lemma ClosesItemFront(rest: string)
    requires ClosesItem(rest)
    ensures !StartsWith(rest, " { ") && !StartsWith(rest, " (")
    ensures |rest| > 0 && !IsNameChar(rest[0])
  {
    assert rest[0] == ',' || rest[1] == '}';
  }

  /** After a name: a set, an argument list or what closes the item, none of which continues the name. */
  lemma AfterName(args: Args, child: SelSet, rest: string)
    requires ClosesItem(rest)
    ensures !StartsWith(RenderSet(child) + rest, " (")
    ensures var t := FormatArgs(args) + RenderSet(child) + rest; |t| > 0 && !IsNameChar(t[0])
    ensures var t := RenderSet(child) + rest; |t| > 0 && !IsNameChar(t[0])
  {
    ClosesItemFront(rest);
    var afterArgs := RenderSet(child) + rest;
    if child.typeSchema.kind == Scalar {
      assert afterArgs == rest;
    } else {
      assert afterArgs[..3] == RenderSet(child)[..3] == " { ";
      assert afterArgs[1] == '{';
    }
    if args != [] {
      assert (FormatArgs(args) + afterArgs)[0] == FormatArgs(args)[..2][0] == ' ';
    } else {
      assert FormatArgs(args) + afterArgs == afterArgs;
    }
  }

  lemma {:induction false} ReadItemsOf(sels: seq<Selection>, rest: string)
    requires sels != [] && forall k :: 0 <= k < |sels| ==> WellFormedSelection(sels[k])
    ensures ReadItems(Join(RenderEach(sels)) + " }" + rest) == Some((EraseEach(sels), rest))
    decreases sels, 2
  {
    if |sels| == 1 {
      assert Join(RenderEach(sels)) + " }" + rest == RenderSelection(sels[0]) + " }" + rest;
      ReadLastItem(sels[0], rest);
      assert sels[1..] == [];
      assert EraseEach(sels) == [EraseItem(sels[0])];
    } else {
      var more := Join(RenderEach(sels[1..])) + " }" + rest;
      assert Join(RenderEach(sels)) + " }" + rest == RenderSelection(sels[0]) + ", " + more by {
        var parts := RenderEach(sels);
        assert parts[0] == RenderSelection(sels[0]) && parts[1..] == RenderEach(sels[1..]);
        assert Join(parts) == parts[0] + ", " + Join(parts[1..]);
      }
      ReadItemsOf(sels[1..], rest);
      ReadItemThenMore(sels[0], more);
      assert EraseEach(sels) == [EraseItem(sels[0])] + EraseEach(sels[1..]);
    }
  }

  /** The last item of a list, followed by its closing brace. */
  lemma {:induction false} ReadLastItem(sel: Selection, rest: string)
    requires WellFormedSelection(sel)
    ensures ReadItems(RenderSelection(sel) + " }" + rest) == Some(([EraseItem(sel)], rest))
    decreases sel, 1
  {
    var tail := " }" + rest;
    assert RenderSelection(sel) + " }" + rest == RenderSelection(sel) + tail;
    ReadItemOf(sel, tail);
    assert !StartsWith(tail, ", ") && StartsWith(tail, " }") && tail[2..] == rest;
  }

  /** An item followed by a separator: the reading continues after the separator. */
  lemma {:induction false} ReadItemThenMore(sel: Selection, more: string)
    requires WellFormedSelection(sel)
    ensures ReadItems(more).None? ==> ReadItems(RenderSelection(sel) + ", " + more).None?
    ensures ReadItems(more).Some? ==>
      ReadItems(RenderSelection(sel) + ", " + more) == Some(([EraseItem(sel)] + ReadItems(more).value.0, ReadItems(more).value.1))
    decreases sel, 1
  {
    var tail := ", " + more;
    assert RenderSelection(sel) + ", " + more == RenderSelection(sel) + tail;
    ReadItemOf(sel, tail);
    assert StartsWith(tail, ", ") && tail[2..] == more;
  }

  lemma {:induction false} ReadItemOf(sel: Selection, rest: string)
    requires WellFormedSelection(sel) && ClosesItem(rest)
    ensures ReadItem(RenderSelection(sel) + rest) == Some((EraseItem(sel), rest))
    decreases sel, 0
  {
    match sel
    case Field(name, args, child) => ReadFieldOf(name, args, child, rest);
    case InlineFragment(typeName, child) => ReadFragmentOf(typeName, child, rest);
  }

  lemma {:induction false} ReadFieldOf(name: string, args: Args, child: SelSet, rest: string)
    requires IsName(name) && KeysAreNames(args) && WellFormed(child) && ClosesItem(rest)
    ensures ReadItem(name + FormatArgs(args) + RenderSet(child) + rest) == Some((FieldItem(name, args, Erase(child)), rest))
    decreases child, 3
  {
    var afterArgs := RenderSet(child) + rest;
    var afterName := FormatArgs(args) + afterArgs;
    var text := name + FormatArgs(args) + RenderSet(child) + rest;
    assert text == name + afterName;
    assert !StartsWith(text, "... on ") by {
      assert text[0] == name[0];
    }
    AfterName(args, child, rest);
    ReadNameOf(name, afterName);
    ReadFormattedArgs(args, afterArgs);
    ClosesItemFront(rest);
    ReadSetOf(child, rest);
  }

  lemma {:induction false} ReadFragmentOf(typeName: string, child: SelSet, rest: string)
    requires IsName(typeName) && WellFormed(child) && ClosesItem(rest)
    ensures ReadItem("... on " + typeName + RenderSet(child) + rest) == Some((FragmentItem(typeName, Erase(child)), rest))
    decreases child, 3
  {
    var afterName := RenderSet(child) + rest;
    var text := "... on " + typeName + RenderSet(child) + rest;
    assert text == "... on " + (typeName + afterName);
    assert StartsWith(text, "... on ") && text[7..] == typeName + afterName;
    AfterName([], child, rest);
    ReadNameOf(typeName, afterName);
    ClosesItemFront(rest);
    ReadSetOf(child, rest);
  }

  /** Rendering a well-formed set loses nothing but the schema: reading it back gives its shape. */
  lemma ReadRendered(s: SelSet)
    requires WellFormed(s)
    ensures ReadSet(RenderSet(s)) == Some((Erase(s), []))
  {
    ReadSetOf(s, []);
    assert RenderSet(s) + [] == RenderSet(s);
  }

  /** The query text of a well-formed root reads back as the root's shape. */
  lemma ReadQueryText(root: SelSet)
    requires WellFormed(root)
    ensures ReadQuery(Build.QueryText(root)) == Some(Erase(root))
  {
    var text := Build.QueryText(root);
    ReadRendered(root);
    assert StartsWith(text, "query") && text[5..] == RenderSet(root);
  }

  /** Two well-formed trees with the same text have the same shape. */
  lemma RenderInjective(s: SelSet, t: SelSet)
    requires WellFormed(s) && WellFormed(t)
    requires RenderSet(s) == RenderSet(t)
    ensures Erase(s) == Erase(t)
  {
    ReadRendered(s);
    ReadRendered(t);
  }
}

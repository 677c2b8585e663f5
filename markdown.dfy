/**
 * `MarkdownContent` (components/ResultCard.tsx): the text is split into
 * lines, each line becomes one element (a list item, a spacer or a
 * paragraph), and each maximal run of list items is folded into one list.
 */
module Markdown {
  import opened Text

  /** The per-line element: `<li>`, the spacer `<div>` that stands for a paragraph break, or `<p>`. */
  datatype Element = Item(text: string) | Spacer | Line(text: string)

  /** The rendered block: `<ul>` of items, a break, or a paragraph. */
  datatype Block = List(items: seq<string>) | Break | Para(text: string)

  /** A trimmed line that starts a bullet. */
  predicate IsBullet(trimmed: string) {
    StartsWith(trimmed, "* ") || StartsWith(trimmed, "- ")
  }

  /**
   * The per-line classification. A bullet keeps the trimmed line minus its
   * two marker characters; a line of white space only is a spacer; every
   * other line is a paragraph of the original, untrimmed text.
   */
  function Classify(line: string): (e: Element)
    ensures e.Item? <==> IsBullet(Trim(line))
    ensures e.Item? ==> e.text == Trim(line)[2..] && |e.text| + 2 <= |line|
    ensures e.Spacer? <==> AllWhiteSpace(line)
    ensures e.Line? ==> e.text == line && !AllWhiteSpace(line)
  {
    var trimmed := Trim(line);
    if IsBullet(trimmed) then Item(trimmed[2..])
    else if trimmed == "" then Spacer
    else Line(line)
  }

  /**
   * A marker followed only by white space trims to the bare marker, so it
   * becomes a paragraph of the untrimmed line, not an empty item.
   */
  lemma BareMarkerIsParagraph(marker: char, tail: string)
    requires marker == '-' || marker == '*'
    requires AllWhiteSpace(tail)
    ensures Classify([marker] + tail) == Line([marker] + tail)
  {
    var line := [marker] + tail;
    WhiteSpaceTail(marker, tail);
    assert Trim(line) == line[..1];
  }

  lemma {:induction false} WhiteSpaceTail(c: char, tail: string)
    requires !IsWhiteSpace(c) && AllWhiteSpace(tail)
    ensures TrailingSpace([c] + tail) == |tail|
  {
    if tail != [] {
      var line := [c] + tail;
      assert line[..|line| - 1] == [c] + tail[..|tail| - 1];
      WhiteSpaceTail(c, tail[..|tail| - 1]);
    }
  }

  /** `text.split('\n').map(...)`: one element per line, in line order. */
  function Elements(text: string): (es: seq<Element>)
    ensures |es| == Count(text, '\n') + 1
    ensures forall i :: 0 <= i < |es| ==> es[i] == Classify(Split(text, '\n')[i])
  {
    var lines := Split(text, '\n');
    seq(|lines|, i requires 0 <= i < |lines| => Classify(lines[i]))
  }

  /** The elements a block stands for. */
  function Expand(b: Block): seq<Element> {
    match b
    case List(items) => ItemsOf(items)
    case Break => [Spacer]
    case Para(t) => [Line(t)]
  }

  function ItemsOf(items: seq<string>): (es: seq<Element>)
    ensures |es| == |items|
    ensures forall i :: 0 <= i < |items| ==> es[i] == Item(items[i])
  {
    if items == [] then [] else [Item(items[0])] + ItemsOf(items[1..])
  }

  /** The elements of a block sequence, lists expanded back into their items. */
  function Flatten(bs: seq<Block>): seq<Element> {
    if bs == [] then [] else Expand(bs[0]) + Flatten(bs[1..])
  }

  /** Every list has an item, and no list is followed by another list. */
  predicate WellGrouped(bs: seq<Block>) {
    bs == [] ||
    ((bs[0].List? ==> bs[0].items != [] && (|bs| == 1 || !bs[1].List?)) && WellGrouped(bs[1..]))
  }

  lemma FlattenCons(b: Block, rest: seq<Block>)
    ensures Flatten([b] + rest) == Expand(b) + Flatten(rest)
  {
    assert ([b] + rest)[1..] == rest;
  }

  /**
   * The grouping, as a reference definition read from the right: an item
   * joins the list that begins the rest, if there is one, and otherwise starts
   * its own list; spacers and paragraphs map to breaks and paragraphs.
   */
  function Group(es: seq<Element>): (bs: seq<Block>)
    ensures Flatten(bs) == es
    ensures WellGrouped(bs)
    ensures bs == [] <==> es == []
    ensures es != [] ==> (bs[0].List? <==> es[0].Item?)
  {
    if es == [] then []
    else
      var rest := Group(es[1..]);
      var bs := Prepend(es[0], rest);
      PrependFacts(es[0], rest);
      assert es == [es[0]] + es[1..];
      bs
  }

  /** One step of the right-to-left grouping: put one element in front of the grouping of the rest. */
  function Prepend(e: Element, rest: seq<Block>): seq<Block> {
    match e
    case Item(t) =>
      if rest != [] && rest[0].List? then [List([t] + rest[0].items)] + rest[1..]
      else [List([t])] + rest
    case Spacer => [Break] + rest
    case Line(t) => [Para(t)] + rest
  }

  lemma PrependFacts(e: Element, rest: seq<Block>)
    requires WellGrouped(rest)
    ensures var bs := Prepend(e, rest);
      Flatten(bs) == [e] + Flatten(rest) && WellGrouped(bs) && bs != [] && (bs[0].List? <==> e.Item?)
  {
    match e
    case Item(t) =>
      if rest != [] && rest[0].List? {
        JoinList(t, rest);
      } else {
        NewList(t, rest);
      }
    case Spacer =>
      ConsSingle(Break, rest);
    case Line(t) =>
      ConsSingle(Para(t), rest);
  }

  lemma JoinList(t: string, rest: seq<Block>)
    requires WellGrouped(rest) && rest != [] && rest[0].List?
    ensures var bs := [List([t] + rest[0].items)] + rest[1..];
      Flatten(bs) == [Item(t)] + Flatten(rest) && WellGrouped(bs)
  {
    JoinListFlatten(t, rest[0].items, rest[1..]);
    assert rest == [rest[0]] + rest[1..];
    JoinListGrouped(t, rest[0].items, rest[1..]);
  }

  lemma JoinListFlatten(t: string, items: seq<string>, tail: seq<Block>)
    ensures Flatten([List([t] + items)] + tail) == [Item(t)] + Flatten([List(items)] + tail)
  {
    FlattenCons(List(items), tail);
    FlattenCons(List([t] + items), tail);
    assert ItemsOf([t] + items) == [Item(t)] + ItemsOf(items);
  }

  lemma JoinListGrouped(t: string, items: seq<string>, tail: seq<Block>)
    requires WellGrouped([List(items)] + tail)
    ensures WellGrouped([List([t] + items)] + tail)
  {
    assert ([List(items)] + tail)[1..] == tail;
    assert ([List([t] + items)] + tail)[1..] == tail;
  }

  lemma NewList(t: string, rest: seq<Block>)
    requires WellGrouped(rest) && (rest == [] || !rest[0].List?)
    ensures var bs := [List([t])] + rest;
      Flatten(bs) == [Item(t)] + Flatten(rest) && WellGrouped(bs)
  {
    FlattenCons(List([t]), rest);
    assert ([List([t])] + rest)[1..] == rest;
    assert ItemsOf([t]) == [Item(t)];
  }

  lemma ConsSingle(b: Block, rest: seq<Block>)
    requires WellGrouped(rest) && !b.List?
    ensures Flatten([b] + rest) == Expand(b) + Flatten(rest) && WellGrouped([b] + rest)
  {
    FlattenCons(b, rest);
    assert ([b] + rest)[1..] == rest;
  }

  /** Flattening distributes over concatenation. */
  lemma {:induction false} FlattenAppend(a: seq<Block>, b: seq<Block>)
    ensures Flatten(a + b) == Flatten(a) + Flatten(b)
  {
    if a == [] {
      assert a + b == b;
    } else {
      assert (a + b)[1..] == a[1..] + b;
      FlattenAppend(a[1..], b);
    }
  }

  /**
   * Items followed by something that is not an item are grouped into exactly
   * one list holding those items.
   */
  lemma {:induction false} GroupItemsThenRest(items: seq<string>, es: seq<Element>)
    requires items != []
    requires es == [] || !es[0].Item?
    ensures Group(ItemsOf(items) + es) == [List(items)] + Group(es)
  {
    var all := ItemsOf(items) + es;
    assert all[0] == Item(items[0]);
    assert all[1..] == ItemsOf(items[1..]) + es;
    if |items| == 1 {
      assert all[1..] == es;
      assert [items[0]] == items;
    } else {
      GroupItemsThenRest(items[1..], es);
      assert [items[0]] + items[1..] == items;
      assert ([List(items[1..])] + Group(es))[1..] == Group(es);
    }
  }

  /**
   * The grouping is the only well-grouped reading of its elements: any block
   * sequence with non-empty lists and no two adjacent lists is what Group
   * makes of its own flattening.
   */
  lemma {:induction false} GroupOfFlatten(bs: seq<Block>)
    requires WellGrouped(bs)
    ensures Group(Flatten(bs)) == bs
  {
    if bs != [] {
      var rest := bs[1..];
      GroupOfFlatten(rest);
      GroupOfCons(bs[0], rest);
      assert bs == [bs[0]] + rest;
    }
  }

  /** One block in front of a grouping that Group reproduces. */
  lemma GroupOfCons(b: Block, rest: seq<Block>)
    requires WellGrouped([b] + rest)
    requires Group(Flatten(rest)) == rest
    ensures Group(Flatten([b] + rest)) == [b] + rest
  {
    FlattenCons(b, rest);
    match b
    case List(items) =>
      assert ([b] + rest)[1..] == rest;
      assert Flatten(rest) == [] || !Flatten(rest)[0].Item? by {
        if rest != [] { FlattenCons(rest[0], rest[1..]); assert rest == [rest[0]] + rest[1..]; }
      }
      GroupItemsThenRest(items, Flatten(rest));
    case Break =>
      GroupCons(Spacer, Flatten(rest));
    case Para(t) =>
      GroupCons(Line(t), Flatten(rest));
  }

  lemma GroupCons(e: Element, es: seq<Element>)
    ensures Group([e] + es) == Prepend(e, Group(es))
  {
    assert ([e] + es)[1..] == es;
  }

  /** Two well-grouped block sequences with the same elements are the same. */
  lemma GroupingIsUnique(a: seq<Block>, b: seq<Block>)
    requires WellGrouped(a) && WellGrouped(b)
    requires Flatten(a) == Flatten(b)
    ensures a == b
  {
    GroupOfFlatten(a);
    GroupOfFlatten(b);
  }

  /** Number of elements that are not list items. */
  function NonItems(es: seq<Element>): nat {
    if es == [] then 0 else (if es[0].Item? then 0 else 1) + NonItems(es[1..])
  }

  /** Number of maximal runs of list items (each counted at the item that ends it). */
  function ItemRuns(es: seq<Element>): nat {
    if es == [] then 0
    else (if es[0].Item? && (|es| == 1 || !es[1].Item?) then 1 else 0) + ItemRuns(es[1..])
  }

  /** One block per non-item element plus one per run of items. */
  lemma {:induction false} GroupCount(es: seq<Element>)
    ensures |Group(es)| == NonItems(es) + ItemRuns(es)
  {
    if es != [] {
      GroupCount(es[1..]);
    }
  }

  /** A block may follow a grouping when it is not a list, or a non-empty list after a non-list. */
  predicate MayFollow(acc: seq<Block>, b: Block) {
    b.List? ==> b.items != [] && (acc == [] || !acc[|acc| - 1].List?)
  }

  /** Appending a block that may follow keeps the grouping well formed. */
  lemma {:induction false} AppendKeepsGrouping(acc: seq<Block>, b: Block)
    requires WellGrouped(acc) && MayFollow(acc, b)
    ensures WellGrouped(acc + [b])
  {
    if acc == [] {
      assert [] + [b] == [b] && [b][1..] == [];
    } else {
      var bs := acc + [b];
      assert bs[1..] == acc[1..] + [b];
      AppendKeepsGrouping(acc[1..], b);
    }
  }

  /** A prefix of a well-formed grouping is well formed. */
  lemma {:induction false} PrefixKeepsGrouping(acc: seq<Block>, k: nat)
    requires WellGrouped(acc) && k <= |acc|
    ensures WellGrouped(acc[..k])
  {
    if k > 0 {
      assert acc[..k][1..] == acc[1..][..k - 1];
      PrefixKeepsGrouping(acc[1..], k - 1);
    }
  }

  /** In a well-formed grouping the block before a list is not a list. */
  lemma {:induction false} BeforeListNotList(acc: seq<Block>, k: nat)
    requires WellGrouped(acc) && 0 < k < |acc| && acc[k].List?
    ensures !acc[k - 1].List?
  {
    if k > 1 {
      BeforeListNotList(acc[1..], k - 1);
    }
  }

  lemma FlattenSnoc(acc: seq<Block>, b: Block)
    ensures Flatten(acc + [b]) == Flatten(acc) + Expand(b)
  {
    FlattenAppend(acc, [b]);
    FlattenCons(b, []);
    assert [b] + [] == [b];
  }

  /** Appending a block that may follow keeps the grouping well formed and adds its elements at the end. */
  lemma AppendBlock(acc: seq<Block>, b: Block)
    requires WellGrouped(acc) && MayFollow(acc, b)
    ensures WellGrouped(acc + [b]) && Flatten(acc + [b]) == Flatten(acc) + Expand(b)
  {
    AppendKeepsGrouping(acc, b);
    FlattenSnoc(acc, b);
  }

  /** Appending an item to a trailing list keeps the grouping well formed and the elements in order. */
  lemma ExtendLastList(acc: seq<Block>, t: string)
    requires WellGrouped(acc) && acc != [] && acc[|acc| - 1].List?
    ensures var n := |acc| - 1;
      var grown := acc[..n] + [List(acc[n].items + [t])];
      WellGrouped(grown) && Flatten(grown) == Flatten(acc) + [Item(t)]
  {
    var n := |acc| - 1;
    var last := acc[n];
    var longer := List(last.items + [t]);
    assert acc == acc[..n] + [last];
    FlattenSnoc(acc[..n], last);
    FlattenSnoc(acc[..n], longer);
    assert ItemsOf(last.items + [t]) == ItemsOf(last.items) + [Item(t)];
    PrefixKeepsGrouping(acc, n);
    if n > 0 {
      BeforeListNotList(acc, n);
      assert acc[..n][n - 1] == acc[n - 1];
    }
    AppendKeepsGrouping(acc[..n], longer);
  }

  /**
   * The `reduce` that folds the elements into blocks, left to right: an item
   * extends the last block when that is a list and otherwise opens a new list;
   * anything else is appended as it is.
   */
  method GroupBlocks(es: seq<Element>) returns (acc: seq<Block>)
    ensures acc == Group(es)
    ensures Flatten(acc) == es && WellGrouped(acc)
  {
    acc := [];
    var i := 0;
    while i < |es|
      invariant 0 <= i <= |es|
      invariant WellGrouped(acc)
      invariant Flatten(acc) == es[..i]
    {
      var el := es[i];
      if el.Item? {
        if acc != [] && acc[|acc| - 1].List? {
          ExtendLastList(acc, el.text);
          acc := acc[..|acc| - 1] + [List(acc[|acc| - 1].items + [el.text])];
        } else {
          AppendBlock(acc, List([el.text]));
          acc := acc + [List([el.text])];
        }
      } else {
        var b := if el.Spacer? then Break else Para(el.text);
        AppendBlock(acc, b);
        acc := acc + [b];
      }
      assert es[..i + 1] == es[..i] + [el];
      i := i + 1;
    }
    assert es[..i] == es;
    GroupingIsUnique(acc, Group(es));
  }

  /**
   * What `MarkdownContent` renders for a text: each line as one element, in
   * order, each maximal run of items as one list, so the block count is the
   * non-item lines plus the item runs.
   */
  function MarkdownBlocks(text: string): (bs: seq<Block>)
    ensures Flatten(bs) == Elements(text)
    ensures WellGrouped(bs)
    ensures |bs| == NonItems(Elements(text)) + ItemRuns(Elements(text))
  {
    GroupCount(Elements(text));
    Group(Elements(text))
  }
}

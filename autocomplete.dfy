/**
  The suggestion list of the autocomplete input (src/components/AutocompleteInput.js): which
  items of `data` are offered for the typed `value`, how many are shown, what choosing one
  emits, and when the dropdown is visible.
 */
module Autocomplete {

  import opened Wrappers

  /**
    One element of `data`: a string, an object with optional `name`, `category` and `unit`,
    or a falsy value (`null`, `undefined`).
   */
  datatype Item = Text(s: string) | Entry(name: Option<string>, category: Option<string>, unit: Option<string>) | Falsy

  /** The most suggestions the dropdown renders. */
  const MaxShown: nat := 5

  /** `toLowerCase` on one character (ASCII letters). */
  function LowerChar(c: char): char
  {
    if 'A' <= c <= 'Z' then (c as int + 32) as char else c
  }

  /** `toLowerCase` on a string (ASCII letters), position by position. */
  function Lower(s: string): (r: string)
    ensures |r| == |s| && forall i | 0 <= i < |s| :: r[i] == LowerChar(s[i])
  {
    seq(|s|, i requires 0 <= i < |s| => LowerChar(s[i]))
  }

  /** `hay.includes(needle)`. */
  predicate Includes(hay: string, needle: string)
  {
    exists i | 0 <= i <= |hay| :: needle <= hay[i..]
  }

  /** The rule for one candidate text: contains the typed value, ignoring case, and is not equal to it. */
  predicate Offered(candidate: string, value: string)
  {
    Includes(Lower(candidate), Lower(value)) && Lower(candidate) != Lower(value)
  }

  /**
    Whether the filter keeps an item: a falsy item never; a non-empty string by the rule on
    itself; an object with a non-empty `name` by the rule on its name; anything else never.
   */
  predicate Keeps(item: Item, value: string)
  {
    match item
    case Falsy => false
    case Text(s) => s != "" && Offered(s, value)
    case Entry(name, _, _) => name.Some? && name.value != "" && Offered(name.value, value)
  }

  /** `data.filter(...)`: the kept items in their original order. */
  function Filter(data: seq<Item>, value: string): (r: seq<Item>)
    ensures |r| <= |data|
    ensures forall x | x in r :: x in data && Keeps(x, value)
    ensures forall x | x in data && Keeps(x, value) :: x in r
  {
    if data == [] then []
    else (if Keeps(data[0], value) then [data[0]] else []) + Filter(data[1..], value)
  }

  /** The filtering effect: nothing for an empty value, otherwise the filter. */
  function Suggestions(data: seq<Item>, value: string): (r: seq<Item>)
    ensures value == "" ==> r == []
    ensures value != "" ==> r == Filter(data, value)
  {
    if value == "" then [] else Filter(data, value)
  }

  /** `a` can be obtained from `b` by deleting elements. */
  predicate SubsequenceOf<T(==)>(a: seq<T>, b: seq<T>)
    decreases |b|
  {
    if b == [] then a == []
    else (a != [] && a[0] == b[0] && SubsequenceOf(a[1..], b[1..])) || SubsequenceOf(a, b[1..])
  }

  /** The suggestions keep the order of `data`: they are a subsequence of it. */
  lemma {:induction false} FilterIsSubsequence(data: seq<Item>, value: string)
    ensures SubsequenceOf(Filter(data, value), data)
    decreases |data|
  {
    if data != [] {
      var rest := Filter(data[1..], value);
      FilterIsSubsequence(data[1..], value);
      if Keeps(data[0], value) {
        var r := Filter(data, value);
        assert r == [data[0]] + rest;
        assert r[0] == data[0] && r[1..] == rest;
      } else {
        assert Filter(data, value) == rest;
      }
    }
  }

  /** Filtering a concatenation filters each part: the order of `data` is kept. */
  lemma {:induction false} FilterAppend(a: seq<Item>, b: seq<Item>, value: string)
    ensures Filter(a + b, value) == Filter(a, value) + Filter(b, value)
    decreases |a|
  {
    if a == [] {
      assert a + b == b;
    } else {
      assert (a + b)[0] == a[0] && (a + b)[1..] == a[1..] + b;
      FilterAppend(a[1..], b, value);
    }
  }

  /** The text a chosen suggestion emits: `item.name` for an object, the item for a string. */
  function SelectedText(item: Item): (t: Option<string>)
    requires !item.Falsy?
    ensures item.Text? ==> t == Some(item.s)
    ensures item.Entry? ==> t == item.name
  {
    match item
    case Text(s) => Some(s)
    case Entry(name, _, _) => name
  }

  /**
    Choosing an offered suggestion always emits a text: a different one that still contains
    the typed value, ignoring case.
   */
  lemma ChosenSuggestionExtendsValue(data: seq<Item>, value: string, item: Item)
    requires item in Suggestions(data, value)
    ensures !item.Falsy? && SelectedText(item).Some?
    ensures Offered(SelectedText(item).value, value)
  {
  }

  /** With a value typed, each string of `data` is offered exactly when the rule holds of it. */
  lemma StringOfferedIff(data: seq<Item>, value: string, s: string)
    requires value != "" && Text(s) in data
    ensures Text(s) in Suggestions(data, value) <==> s != "" && Offered(s, value)
  {
  }

  /** The component's state: whether the dropdown is open and the current filtered list. */
  class AutocompleteInput {
    var visible: bool
    var filtered: seq<Item>

    constructor ()
      ensures !visible && filtered == []
    {
      visible := false;
      filtered := [];
    }

    /** The effect on `[value, data]`: recompute the filtered list; visibility stays. */
    method Refilter(data: seq<Item>, value: string)
      modifies this
      ensures filtered == Suggestions(data, value) && visible == old(visible)
    {
      filtered := Suggestions(data, value);
    }

    /** `onChangeText` of the input: pass the text on; the dropdown opens iff the text is non-empty. */
    method ChangeText(text: string) returns (emitted: string)
      modifies this
      ensures emitted == text && (visible <==> text != "") && filtered == old(filtered)
    {
      emitted := text;
      visible := |text| > 0;
    }

    /** `handleFocus`: open the dropdown when there is something to show. */
    method Focus()
      modifies this
      ensures visible == (old(visible) || |filtered| > 0) && filtered == old(filtered)
    {
      if |filtered| > 0 {
        visible := true;
      }
    }

    /** `handleSelect`: emit the chosen text and close the dropdown. */
    method Select(item: Item) returns (emitted: Option<string>)
      requires !item.Falsy?
      modifies this
      ensures emitted == SelectedText(item) && !visible && filtered == old(filtered)
    {
      emitted := SelectedText(item);
      visible := false;
    }

    /**
      What the dropdown renders: nothing unless it is visible and the list is non-empty,
      then the first five filtered items, in order.
     */
    function Dropdown(): (r: seq<Item>)
      reads this
      ensures |r| <= MaxShown
      ensures r != [] <==> visible && filtered != []
      ensures r != [] ==> |r| == (if |filtered| < MaxShown then |filtered| else MaxShown) && r == filtered[..|r|]
    {
      if visible && |filtered| > 0 then filtered[..if |filtered| < MaxShown then |filtered| else MaxShown] else []
    }
  }
}

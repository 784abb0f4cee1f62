/**
 * The text of one row of the demo list (paintListBoxItem): a demo name such as
 * "20 Components: Widgets" shows a small category and a bold title.
 */
module RowLabels {
  import opened Text

  /**
   * The two runs drawn in a row: the category, drawn small and left out when
   * empty, and the title, drawn bold.
   */
  datatype Label = Label(category: string, title: string)

  /** What follows the category: a line break in rows taller than 20, a space otherwise. */
  function CategorySeparator(height: int): (sep: string)
    ensures |sep| == 1 && (sep == "\n" <==> height > 20)
  {
    if height > 20 then "\n" else " "
  }

  /** The name with its leading digits, then its leading whitespace, removed. */
  function DisplayName(name: string): (t: string)
    ensures |t| <= |name| && t == name[|name| - |t|..]
    ensures t == [] || !IsWhitespace(t[0])
  {
    TrimStart(StripLeadingDigits(name))
  }

  /** A name that starts with neither a digit nor whitespace is shown as it is. */
  lemma DisplayNameOfClean(t: string)
    requires t == [] || (!IsDigit(t[0]) && !IsWhitespace(t[0]))
    ensures DisplayName(t) == t
  {
    DropWhileStopsAt(t, IsDigit, 0);
    DropWhileStopsAt(t, IsWhitespace, 0);
  }

  /**
   * Every name is its leading digits, then the whitespace after them, then
   * the shown name: the digit run and the whitespace run are both as long as
   * they can be.
   */
  lemma DisplayNameSplits(name: string)
    ensures var digits := |name| - |StripLeadingDigits(name)|;
            var hidden := |name| - |DisplayName(name)|;
            digits <= hidden && name[hidden..] == DisplayName(name)
            && (forall i :: 0 <= i < digits ==> IsDigit(name[i]))
            && (digits < |name| ==> !IsDigit(name[digits]))
            && (forall i :: digits <= i < hidden ==> IsWhitespace(name[i]))
  {
    var rest := StripLeadingDigits(name);
    var digits := |name| - |rest|;
    var hidden := |name| - |DisplayName(name)|;
    assert rest == name[digits..] && DisplayName(name) == TrimStart(rest);
    assert forall i :: 0 <= i < digits ==> IsDigit(name[i]) by {
      DropWhileDropsOnly(name, IsDigit);
    }
    assert forall i :: digits <= i < hidden ==> IsWhitespace(name[i]) by {
      DropWhileDropsOnly(rest, IsWhitespace);
      AllFromOffset(name, digits, hidden, IsWhitespace);
    }
  }


  /**
   * The label of a row of the given height: the name is cleaned by
   * DisplayName and then split by SplitLabel.
   */
  function RowLabel(name: string, height: int): Label
  {
    SplitLabel(DisplayName(name), height)
  }

  /**
   * Every row shows a title no longer than the name that never starts with
   * whitespace, and a category exactly when the shown name has a colon.
   */
  lemma RowLabelShape(name: string, height: int)
    ensures var l := RowLabel(name, height);
      |l.title| <= |name| && (l.title == [] || !IsWhitespace(l.title[0]))
      && (l.category == [] <==> ':' !in DisplayName(name))
  {
    var t := DisplayName(name);
    if ':' in t {
      SplitLabelShape(t, height);
    }
  }

  /**
   * The label for the cleaned text t. It is split at its first colon: the
   * category keeps the colon and gains the separator, the title is the rest,
   * trimmed. Without a colon the category is empty and t is the title.
   */
  function SplitLabel(t: string, height: int): (l: Label)
    ensures ':' !in t ==> l == Label("", t)
    ensures ':' in t ==> |l.category| >= 2 && l.category[|l.category| - 1..] == CategorySeparator(height)
  {
    var k := IndexOf(t, ':');
    if k < 0 then
      Label("", t)
    else
      Label(t[..k + 1] + CategorySeparator(height), Trim(t[k + 1..]))
  }

  /**
   * With a colon, the category without its separator is the text up to and
   * including the first colon, and the title is what follows it, trimmed.
   */
  lemma SplitAtFirstColon(t: string, height: int)
    requires ':' in t
    ensures var l := SplitLabel(t, height);
      var head := l.category[..|l.category| - 1];
      |head| <= |t| && head + t[|head|..] == t
      && head[|head| - 1] == ':' && ':' !in head[..|head| - 1]
      && l.title == Trim(t[|head|..])
  {
    var k := IndexOf(t, ':');
    var sep := CategorySeparator(height);
    var l := SplitLabel(t, height);
    assert l.category == t[..k + 1] + sep && l.title == Trim(t[k + 1..]);
    ColonHead(t, k, sep);
    var head := l.category[..|l.category| - 1];
    assert head == t[..k + 1] && |head| == k + 1;
    assert head[..|head| - 1] == t[..k] && ':' !in t[..k];
    assert t[|head|..] == t[k + 1..];
  }

  /** The text through position k, followed by a one-character separator, gives that text back when the separator is cut off. */
  lemma ColonHead(t: string, k: int, sep: string)
    requires 0 <= k < |t| && |sep| == 1
    ensures var c := t[..k + 1] + sep;
      var head := c[..|c| - 1];
      head == t[..k + 1] && |head| == k + 1 && head + t[|head|..] == t
      && head[|head| - 1] == t[k] && head[..|head| - 1] == t[..k]
  {
    var c := t[..k + 1] + sep;
    assert c[..|c| - 1] == t[..k + 1];
    TakeDrop(t, k + 1);
  }

  /** With a colon, the title never starts or ends with whitespace and the category is drawn. */
  lemma SplitLabelShape(t: string, height: int)
    requires ':' in t
    ensures var l := SplitLabel(t, height);
      l.category != "" && (l.title == [] || (!IsWhitespace(l.title[0]) && !IsWhitespace(l.title[|l.title| - 1])))
  {
  }

  /**
   * The digits that order the registry, and the spacing after them, are not
   * shown: digits, then whitespace, then a text starting with neither, shows
   * that text.
   */
  lemma {:induction false} OrderingPrefixHidden(digits: string, space: string, t: string)
    requires forall i :: 0 <= i < |digits| ==> IsDigit(digits[i])
    requires forall i :: 0 <= i < |space| ==> IsWhitespace(space[i])
    requires t == [] || (!IsDigit(t[0]) && !IsWhitespace(t[0]))
    ensures DisplayName(digits + space + t) == t
  {
    var rest := space + t;
    assert StripLeadingDigits(digits + rest) == rest by {
      assert rest == [] || !IsDigit(rest[0]);
      DropWhileStopsAt(digits + rest, IsDigit, |digits|);
      assert (digits + rest)[|digits|..] == rest;
    }
    assert TrimStart(rest) == t by {
      DropWhileStopsAt(rest, IsWhitespace, |space|);
      assert rest[|space|..] == t;
    }
    AppendAssoc(digits, space, t);
  }

  /** A name without a colon is drawn as its title alone: "20 Zebra" reads "Zebra". */
  lemma PlainNameLabel(digits: string, space: string, title: string, height: int)
    requires forall i :: 0 <= i < |digits| ==> IsDigit(digits[i])
    requires forall i :: 0 <= i < |space| ==> IsWhitespace(space[i])
    requires title == [] || (!IsDigit(title[0]) && !IsWhitespace(title[0]))
    requires ':' !in title
    ensures RowLabel(digits + space + title, height) == Label("", title)
  {
    OrderingPrefixHidden(digits, space, title);
  }

  /**
   * A name with a colon is drawn as the category up to the colon, followed by
   * the row's separator, and the trimmed rest as the title.
   */
  lemma CategoryNameLabel(digits: string, space: string, head: string, rest: string, height: int)
    requires forall i :: 0 <= i < |digits| ==> IsDigit(digits[i])
    requires forall i :: 0 <= i < |space| ==> IsWhitespace(space[i])
    requires head == [] || (!IsDigit(head[0]) && !IsWhitespace(head[0]))
    requires ':' !in head
    ensures RowLabel(digits + space + (head + ":" + rest), height)
              == Label(head + ":" + CategorySeparator(height), Trim(rest))
  {
    var t := head + ":" + rest;
    assert t == [] || (!IsDigit(t[0]) && !IsWhitespace(t[0])) by {
      assert t[0] == (head + ":")[0];
    }
    OrderingPrefixHidden(digits, space, t);
    SplitAtColonAfter(head, rest, height);
  }

  /** Text whose first colon follows head splits into head and the colon, and the trimmed rest. */
  lemma SplitAtColonAfter(head: string, rest: string, height: int)
    requires ':' !in head
    ensures SplitLabel(head + ":" + rest, height) == Label(head + ":" + CategorySeparator(height), Trim(rest))
  {
    var t := head + ":" + rest;
    assert IndexOf(t, ':') == |head| by {
      assert t[|head|] == ':';
      assert t[..|head|] == head;
      IndexOfIs(t, ':', |head|);
    }
    assert t[..|head| + 1] == head + ":" && t[|head| + 1..] == rest;
  }

  /** "20 Zebra" is drawn as "Zebra", without a category. */
  lemma ZebraExample(height: int)
    ensures RowLabel("20" + " " + "Zebra", height) == Label("", "Zebra")
  {
    PlainNameLabel("20", " ", "Zebra", height);
  }

  /**
   * "20 Components: Widgets": a 20-pixel row reads "Components: " then
   * "Widgets"; a 25-pixel row breaks the line after the colon.
   */
  lemma ComponentsExample()
    ensures RowLabel("20" + " " + ("Components" + ":" + (" " + "Widgets")), 20) == Label("Components" + ":" + " ", "Widgets")
    ensures RowLabel("20" + " " + ("Components" + ":" + (" " + "Widgets")), 25) == Label("Components" + ":" + "\n", "Widgets")
  {
    var digits, space, head, rest := "20", " ", "Components", " " + "Widgets";
    assert forall i :: 0 <= i < |digits| ==> IsDigit(digits[i]);
    assert forall i :: 0 <= i < |space| ==> IsWhitespace(space[i]);
    assert !IsDigit(head[0]) && !IsWhitespace(head[0]);
    assert ':' !in head;
    assert Trim(rest) == "Widgets" by {
      TrimOfPadded(" ", "Widgets");
    }
    CategoryNameLabel(digits, space, head, rest, 20);
    CategoryNameLabel(digits, space, head, rest, 25);
  }
}

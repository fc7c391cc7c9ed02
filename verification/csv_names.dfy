/** The client-side recommendation source: product names read from the `name`
    column of a CSV text, shuffled, and the first five numbered for display. */
module CsvNames {
  import opened Base
  import JsText

  /** How many recommendations are shown at most. */
  const MaxShown: nat := 5

  /** A data line's product; `name` is `None` when the line has fewer fields
      than the header's `name` position (`values[nameIndex]` is `undefined`). */
  datatype Item = Item(name: Option<string>)

  /** A displayed recommendation: its position in the list and its product name. */
  datatype Recommendation = Recommendation(id: nat, name: Option<string>)

  datatype CsvError =
      /** No non-blank line at all: reading the header of `lines[0]` fails. */
    | NoLines
      /** The header has no field `name`. */
    | NoNameColumn

  /** The filter's test: the line is not empty once trimmed. */
  predicate NonBlank(line: string)
  {
    JsText.Trim(line) != ""
  }

  /** The lines of the text that are not blank, in order. */
  function NonBlankLines(text: string): seq<string>
  {
    Filter(JsText.Split(text, '\n'), NonBlank)
  }

  /** A line cut at commas, each field trimmed. */
  function Fields(line: string): seq<string>
  {
    var raw := JsText.Split(line, ',');
    seq(|raw|, i requires 0 <= i < |raw| => JsText.Trim(raw[i]))
  }

  /** `k` is where `indexOf('name')` points in `header`: the first `name`. */
  predicate IsNameColumn(header: seq<string>, k: int)
  {
    0 <= k < |header| && header[k] == "name" && "name" !in header[..k]
  }

  /** The position of the `name` column in the first line. */
  function NameColumn(lines: seq<string>): (r: Result<nat, CsvError>)
    ensures r == Failure(NoLines) <==> |lines| == 0
    ensures r == Failure(NoNameColumn) <==> |lines| > 0 && "name" !in Fields(lines[0])
    ensures r.Success? ==> |lines| > 0 && IsNameColumn(Fields(lines[0]), r.value)
  {
    if |lines| == 0 then Failure(NoLines)
    else
      var k := JsText.IndexOf(Fields(lines[0]), "name");
      if k == -1 then Failure(NoNameColumn) else Success(k)
  }

  /** `values[k]` of a data line. */
  function FieldAt(line: string, k: nat): Option<string>
  {
    var values := Fields(line);
    if k < |values| then Some(values[k]) else None
  }

  /** The name of every data line of the non-blank `lines`, in order, or why
      there are none. */
  function NamesOfLines(lines: seq<string>): (r: Result<seq<Item>, CsvError>)
    ensures r == Failure(NoLines) <==> |lines| == 0
    ensures r == Failure(NoNameColumn) <==> |lines| > 0 && "name" !in Fields(lines[0])
    ensures r.Success? ==> |r.value| == |lines| - 1
    ensures r.Success? ==> NameColumn(lines).Success? && forall j :: 0 <= j < |r.value| ==>
      r.value[j].name == FieldAt(lines[j + 1], NameColumn(lines).value)
  {
    match NameColumn(lines)
    case Failure(e) => Failure(e)
    case Success(k) => Success(DataNames(lines, k))
  }

  /** Field `k` of every line after the header, in order. */
  function DataNames(lines: seq<string>, k: nat): (names: seq<Item>)
    requires |lines| > 0
    ensures |names| == |lines| - 1
    ensures forall j :: 0 <= j < |names| ==> names[j] == Item(FieldAt(lines[j + 1], k))
  {
    var names := Map(lines[1..], line => Item(FieldAt(line, k)));
    assert forall j :: 0 <= j < |names| ==> lines[1..][j] == lines[j + 1];
    names
  }

  /** What the handler reads from the CSV text. */
  function ExtractNames(text: string): Result<seq<Item>, CsvError>
  {
    NamesOfLines(NonBlankLines(text))
  }

  /** A text is whitespace exactly when all its lines are. */
  lemma {:induction false} WhiteJoin(parts: seq<string>)
    ensures JsText.AllWhiteSpace(JsText.Join(parts, '\n')) <==>
      forall i :: 0 <= i < |parts| ==> JsText.AllWhiteSpace(parts[i])
  {
    if |parts| > 1 {
      WhiteJoin(parts[1..]);
      var rest := JsText.Join(parts[1..], '\n');
      var s := parts[0] + ['\n'] + rest;
      assert JsText.Join(parts, '\n') == s;
      assert JsText.IsWhiteSpace('\n');
      if JsText.AllWhiteSpace(s) {
        forall i | 0 <= i < |parts| ensures JsText.AllWhiteSpace(parts[i]) {
          if i == 0 {
            assert forall k :: 0 <= k < |parts[0]| ==> parts[0][k] == s[k];
          } else {
            assert forall k :: 0 <= k < |rest| ==> rest[k] == s[|parts[0]| + 1 + k];
            assert parts[1..][i - 1] == parts[i];
          }
        }
      }
      if forall i :: 0 <= i < |parts| ==> JsText.AllWhiteSpace(parts[i]) {
        assert JsText.AllWhiteSpace(parts[0]);
        assert forall i :: 0 <= i < |parts[1..]| ==> JsText.AllWhiteSpace(parts[1..][i]);
        forall k | 0 <= k < |s| ensures JsText.IsWhiteSpace(s[k]) {
          if k < |parts[0]| {
            assert s[k] == parts[0][k];
          } else if k > |parts[0]| {
            assert s[k] == rest[k - |parts[0]| - 1];
          }
        }
      }
    }
  }

  /** The CSV is rejected for having no lines exactly when the whole text is
      whitespace (the empty text included). */
  lemma NoLinesIffWhiteText(text: string)
    ensures ExtractNames(text) == Failure(NoLines) <==> JsText.AllWhiteSpace(text)
  {
    var parts := JsText.Split(text, '\n');
    JsText.JoinSplit(text, '\n');
    WhiteJoin(parts);
    BlankPartsAreWhite(parts);
    FilterEmpty(parts, NonBlank);
  }

  lemma BlankPartsAreWhite(parts: seq<string>)
    ensures (forall i :: 0 <= i < |parts| ==> !NonBlank(parts[i])) <==>
      (forall i :: 0 <= i < |parts| ==> JsText.AllWhiteSpace(parts[i]))
  {
    forall i | 0 <= i < |parts| ensures !NonBlank(parts[i]) <==> JsText.AllWhiteSpace(parts[i]) {
      JsText.TrimEmptyIffBlank(parts[i]);
    }
  }

  /** Splitting at a separator between two texts splits each of them. */
  lemma {:induction false} SplitAround(a: string, sep: char, b: string)
    ensures JsText.Split(a + [sep] + b, sep) == JsText.Split(a, sep) + JsText.Split(b, sep)
    decreases |a|
  {
    var s := a + [sep] + b;
    if |a| == 0 {
      assert s == [sep] + b && s[1..] == b;
    } else {
      ConsAppend(a, [sep] + b);
      AppendAssoc(a, [sep], b);
      AppendAssoc(a[1..], [sep], b);
      SplitAround(a[1..], sep, b);
      var x, y := JsText.Split(a[1..], sep), JsText.Split(b, sep);
      ConsAppend(x, y);
      if a[0] == sep {
        AppendAssoc([""], x, y);
      } else {
        AppendAssoc([[a[0]] + x[0]], x[1..], y);
      }
    }
  }

  /** The lines of a text with one more line `w` in the middle. */
  lemma SplitWithLine(a: string, w: string, b: string)
    requires '\n' !in w
    ensures JsText.Split(a + "\n" + w + "\n" + b, '\n') ==
      JsText.Split(a, '\n') + [w] + JsText.Split(b, '\n')
    ensures JsText.Split(a + "\n" + b, '\n') == JsText.Split(a, '\n') + JsText.Split(b, '\n')
  {
    var wb := w + ['\n'] + b;
    assert a + "\n" + w + "\n" + b == a + ['\n'] + wb;
    assert a + "\n" + b == a + ['\n'] + b;
    SplitAround(w, '\n', b);
    JsText.SplitJoin([w], '\n');
    SplitAround(a, '\n', wb);
    SplitAround(a, '\n', b);
  }

  /** Whitespace-only lines make no difference: putting one between two lines
      of the text leaves the non-blank lines, and so everything read from the
      CSV, unchanged. */
  lemma BlankLineIgnored(a: string, w: string, b: string)
    requires JsText.AllWhiteSpace(w) && '\n' !in w
    ensures NonBlankLines(a + "\n" + w + "\n" + b) == NonBlankLines(a + "\n" + b)
    ensures ExtractNames(a + "\n" + w + "\n" + b) == ExtractNames(a + "\n" + b)
  {
    SplitWithLine(a, w, b);
    JsText.TrimEmptyIffBlank(w);
    DropRejected(JsText.Split(a, '\n'), w, JsText.Split(b, '\n'), NonBlank);
  }

  /** The draw that picks the next item: the first one, or 0 once they run out. */
  function NextDraw(draws: seq<nat>): nat
  {
    if |draws| > 0 then draws[0] else 0
  }

  function LaterDraws(draws: seq<nat>): seq<nat>
  {
    if |draws| > 0 then draws[1..] else []
  }

  /** Which of `n` remaining items a draw picks: the draw modulo `n`. */
  function Pick(draw: nat, n: nat): (k: nat)
    requires n > 0
    ensures k < n
    ensures draw < n ==> k == draw
    decreases draw
  {
    if draw < n then draw else Pick(draw - n, n)
  }

  /** `xs` without its element at `k`. */
  function RemoveAt<T>(xs: seq<T>, k: nat): seq<T>
    requires k < |xs|
  {
    xs[..k] + xs[k + 1..]
  }

  lemma RemoveAtMultiset<T>(xs: seq<T>, k: nat)
    requires k < |xs|
    ensures multiset(RemoveAt(xs, k)) + multiset{xs[k]} == multiset(xs)
  {
    var left, right := xs[..k], xs[k + 1..];
    assert xs == left + ([xs[k]] + right);
    assert RemoveAt(xs, k) == left + right;
  }

  /** The random reordering of the extracted items. Each draw picks, modulo
      the number of items left, which remaining item comes next; a missing
      draw picks the first. */
  function Shuffle<T>(xs: seq<T>, draws: seq<nat>): seq<T>
    decreases |xs|
  {
    if |xs| == 0 then []
    else
      var k := Pick(NextDraw(draws), |xs|);
      [xs[k]] + Shuffle(RemoveAt(xs, k), LaterDraws(draws))
  }

  /** Whatever the draws, the shuffle is a permutation: every item is kept,
      as many times as it occurs. */
  lemma {:induction false} ShufflePermutes<T>(xs: seq<T>, draws: seq<nat>)
    ensures multiset(Shuffle(xs, draws)) == multiset(xs)
    decreases |xs|
  {
    if |xs| > 0 {
      var k := Pick(NextDraw(draws), |xs|);
      var rest := RemoveAt(xs, k);
      var tail := Shuffle(rest, LaterDraws(draws));
      ShufflePermutes(rest, LaterDraws(draws));
      RemoveAtMultiset(xs, k);
      assert Shuffle(xs, draws) == [xs[k]] + tail;
      assert multiset([xs[k]] + tail) == multiset{xs[k]} + multiset(tail);
    }
  }

  predicate AllZero(draws: seq<nat>)
  {
    forall i :: 0 <= i < |draws| ==> draws[i] == 0
  }

  lemma ZeroDrawsStep(draws: seq<nat>)
    requires AllZero(draws)
    ensures NextDraw(draws) == 0 && AllZero(LaterDraws(draws))
  {
  }

  lemma RemoveFirst<T>(xs: seq<T>)
    requires |xs| > 0
    ensures RemoveAt(xs, 0) == xs[1..]
  {
  }

  /** Draws of zero keep the original order: the identity is one of the
      orders the shuffle can produce. */
  lemma {:induction false} ShuffleZeroIsIdentity<T>(xs: seq<T>, draws: seq<nat>)
    requires AllZero(draws)
    ensures Shuffle(xs, draws) == xs
    decreases |xs|
  {
    if |xs| > 0 {
      ZeroDrawsStep(draws);
      RemoveFirst(xs);
      ShuffleZeroIsIdentity(xs[1..], LaterDraws(draws));
      ConsFirst(xs);
    }
  }

  /** The first five items, each numbered by its position from 0. */
  function Select(items: seq<Item>): seq<Recommendation>
  {
    var k := Min(MaxShown, |items|);
    seq(k, i requires 0 <= i < k => Recommendation(i, items[i].name))
  }

  /** The items behind a list of recommendations. */
  function ItemsOf(recs: seq<Recommendation>): seq<Item>
  {
    seq(|recs|, i requires 0 <= i < |recs| => Item(recs[i].name))
  }

  lemma SelectTakesPrefix(xs: seq<Item>)
    ensures |Select(xs)| == Min(MaxShown, |xs|)
    ensures ItemsOf(Select(xs)) == xs[..|Select(xs)|]
  {
  }

  lemma PrefixMultiset<T>(xs: seq<T>, k: nat)
    requires k <= |xs|
    ensures multiset(xs[..k]) <= multiset(xs)
  {
    assert xs == xs[..k] + xs[k..];
  }

  /** The displayed list: at most five entries, numbered from 0 in list order,
      holding items of the CSV each at most as often as the CSV does; when the
      CSV has five items or fewer, exactly its items, reordered. */
  lemma {:induction false} RecommendationsFromItems(items: seq<Item>, draws: seq<nat>)
    ensures |Select(Shuffle(items, draws))| == Min(MaxShown, |items|)
    ensures forall i :: 0 <= i < |Select(Shuffle(items, draws))| ==> Select(Shuffle(items, draws))[i].id == i
    ensures multiset(ItemsOf(Select(Shuffle(items, draws)))) <= multiset(items)
    ensures |items| <= MaxShown ==> multiset(ItemsOf(Select(Shuffle(items, draws)))) == multiset(items)
  {
    var shuffled := Shuffle(items, draws);
    ShufflePermutes(items, draws);
    assert |shuffled| == |items| by {
      assert |multiset(shuffled)| == |multiset(items)|;
    }
    SelectTakesPrefix(shuffled);
    var k := |Select(shuffled)|;
    PrefixMultiset(shuffled, k);
    assert k == |shuffled| ==> shuffled[..k] == shuffled;
  }
}

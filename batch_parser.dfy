/**
 * Recovering prompt strings from the service's free-text reply
 * (`GenAIHelper._parse_batch_response`). The parser tries, first success
 * wins: the whole text as a JSON object with a `prompts` list; the first
 * regex-located `{ ... "prompts" ... [ ... ] ... }` substring decoded the same
 * way; the text as a numbered list; the whole trimmed text as one item. Every
 * path keeps at most `expected` items.
 */
module BatchParser {
  import opened Wrappers
  import opened PyText
  import opened Values

  /**
   * The JSON decoder and the regex engine, kept abstract.
   * `decode(s)` is `json.loads(s)`, None standing for `JSONDecodeError`;
   * `search(s)` is the text of the first match of the `prompts`-object pattern
   * in `s`, None when nothing matches.
   */
  datatype Codec = Codec(decode: string -> Option<Value>, search: string -> Option<string>)

  /** `TypeError` escaping the parser: only `JSONDecodeError` is caught there. */
  datatype ParseFault = TypeFault

  /** What `'prompts' in data and isinstance(data['prompts'], list)` does. */
  datatype PromptsLookup = Raises | Missing | Found(items: seq<Value>)

  /**
   * The membership test and subscription on a decoded value: `in` on a number,
   * a bool or None raises; on a string it is a substring test and on a list an
   * element test, and subscribing either with `'prompts'` then raises.
   */
  function PromptsField(data: Value): (r: PromptsLookup)
    ensures r.Found? <==> data.VDict? && "prompts" in data.fields && data.fields["prompts"].VList?
    ensures r.Found? ==> r.items == data.fields["prompts"].items
    ensures data.VDict? ==> !r.Raises?
  {
    match data
    case VDict(m) => if "prompts" in m && m["prompts"].VList? then Found(m["prompts"].items) else Missing
    case VList(xs) => if VStr("prompts") in xs then Raises else Missing
    case VStr(s) => if Contains(s, "prompts") then Raises else Missing
    case _ => Raises
  }

  /**
   * One JSON attempt on `s`: a decode error falls through like a missing list; the list is
   * found only in a decoded object, and only a decoded non-object can raise.
   */
  function JsonAttempt(codec: Codec, s: string): (r: PromptsLookup)
    ensures codec.decode(s).None? ==> r.Missing?
    ensures r.Found? <==> codec.decode(s).Some? && codec.decode(s).value.VDict?
                          && "prompts" in codec.decode(s).value.fields && codec.decode(s).value.fields["prompts"].VList?
    ensures r.Found? ==> r.items == codec.decode(s).value.fields["prompts"].items
    ensures r.Raises? ==> codec.decode(s).Some? && !codec.decode(s).value.VDict?
  {
    match codec.decode(s)
    case None => Missing
    case Some(data) => PromptsField(data)
  }

  /** The regex fallback: with no match there is nothing to decode; otherwise the located piece is decoded. */
  function MatchAttempt(codec: Codec, text: string): (r: PromptsLookup)
    ensures codec.search(text).None? ==> r.Missing?
    ensures r.Found? <==> codec.search(text).Some? && JsonAttempt(codec, codec.search(text).value).Found?
    ensures r.Raises? ==> codec.search(text).Some? && codec.decode(codec.search(text).value).Some?
                          && !codec.decode(codec.search(text).value).value.VDict?
  {
    match codec.search(text)
    case None => Missing
    case Some(m) => JsonAttempt(codec, m)
  }

  /** Length of the run of ASCII digits at the start of `s`. */
  function DigitRun(s: string): (n: nat)
    ensures n <= |s|
    ensures forall k :: 0 <= k < n ==> IsDigit(s[k])
    ensures n < |s| ==> !IsDigit(s[n])
  {
    if s != [] && IsDigit(s[0]) then 1 + DigitRun(s[1..]) else 0
  }

  /** `re.match(r'^\d+\.', line)` */
  predicate IsNumbered(line: string) {
    var d := DigitRun(line);
    1 <= d < |line| && line[d] == '.'
  }

  /** `line` opens with `n` (at least one) digits followed by a dot. */
  predicate NumberedAt(line: string, n: int) {
    1 <= n < |line| && (forall k :: 0 <= k < n ==> IsDigit(line[k])) && line[n] == '.'
  }

  /** A line is numbered exactly when it opens with one or more digits and then a dot. */
  lemma IsNumberedIff(line: string)
    ensures IsNumbered(line) <==> exists n :: NumberedAt(line, n)
  {
    if IsNumbered(line) {
      assert NumberedAt(line, DigitRun(line));
    }
    if exists n :: NumberedAt(line, n) {
      var n :| NumberedAt(line, n);
      assert line == line[..n] + line[n..];
      DigitRunOfDigits(line[..n], line[n..]);
    }
  }

  /** One pair of surrounding double quotes removed (`p[1:-1]`), only when both ends are quoted. */
  function Unquote(p: string): (r: string)
    ensures (p != [] && p[0] == '"' && p[|p| - 1] == '"') ==> |r| == if |p| >= 2 then |p| - 2 else 0
    ensures !(p != [] && p[0] == '"' && p[|p| - 1] == '"') ==> r == p
  {
    if p != [] && p[0] == '"' && p[|p| - 1] == '"' then (if |p| >= 2 then p[1..|p| - 1] else "")
    else p
  }

  /** `r` occurs in `s` at index `i`. */
  predicate OccursAt(r: string, s: string, i: int) {
    0 <= i && i + |r| <= |s| && r == s[i..i + |r|]
  }

  /** `r` occurs in `s` somewhere after index `d`. */
  ghost predicate PieceAfter(r: string, s: string, d: int) {
    exists i :: d < i && OccursAt(r, s, i)
  }

  /** The item a numbered line stands for: `re.sub(r'^\d+\.\s*', '', line).strip()` then unquoted. */
  function ItemText(line: string): string
    requires IsNumbered(line)
  {
    Unquote(Strip(TrimStart(line[DigitRun(line) + 1..])))
  }

  /** A numbered line's item is a piece of the line after the number's dot. */
  lemma ItemTextPiece(line: string)
    requires IsNumbered(line)
    ensures PieceAfter(ItemText(line), line, DigitRun(line))
  {
    var d := DigitRun(line);
    var u := line[d + 1..];
    var t := TrimStart(u);
    TrimStartDrops(u);
    var p := TrimEnd(t);
    assert TrimStart(t) == t;
    var r := Unquote(p);
    var j := if p != [] && p[0] == '"' && p[|p| - 1] == '"' && |p| >= 2 then 1 else 0;
    assert r == p[j..j + |r|];
    assert OccursAt(r, line, d + 1 + (|u| - |t|) + j);
  }

  /** Unquoting removes exactly the first and the last character of a quoted piece. */
  lemma UnquoteQuoted(p: string)
    requires p != [] && p[0] == '"' && p[|p| - 1] == '"'
    ensures Unquote(p) == if |p| >= 2 then p[1..|p| - 1] else []
  {
  }

  /** The item of one raw line, if its stripped form is numbered. */
  function LineItem(line: string): seq<string> {
    var l := Strip(line);
    if IsNumbered(l) then [ItemText(l)] else []
  }

  /** The items of all numbered lines, in order. */
  function NumberedItems(lines: seq<string>): (r: seq<string>)
    ensures |r| <= |lines|
  {
    if lines == [] then [] else LineItem(lines[0]) + NumberedItems(lines[1..])
  }

  /** The list the scanning loop builds: it breaks as soon as it holds `expected` items (and always after the first when `expected <= 0`). */
  function Collected(lines: seq<string>, expected: int): seq<string> {
    var items := NumberedItems(lines);
    items[..ScanLimit(|items|, expected)]
  }

  /** How many items the scan keeps out of `found`: at most `expected`, and at least one. */
  function ScanLimit(found: nat, expected: int): (n: nat)
    ensures n <= found
  {
    var cap := if expected >= 1 then expected else 1;
    if found <= cap then found else cap
  }

  function AsValues(xs: seq<string>): (r: seq<Value>)
    ensures |r| == |xs| && forall k :: 0 <= k < |xs| ==> r[k] == VStr(xs[k])
  {
    if xs == [] then [] else [VStr(xs[0])] + AsValues(xs[1..])
  }

  /** The numbered-list fallback and, when it finds nothing, the whole trimmed text. */
  function FallbackItems(text: string, expected: int): seq<Value> {
    var found := Collected(Split(Strip(text), '\n'), expected);
    PySlicePrefix(if found == [] then [VStr(Strip(text))] else AsValues(found), expected)
  }

  /**
   * The parse policy as a whole: it raises only where one of the two JSON attempts does before a
   * list is found, and it never yields more than `expected` items.
   */
  function ParseSpec(text: string, expected: int, codec: Codec): (r: Result<seq<Value>, ParseFault>)
    ensures r.Err? <==> JsonAttempt(codec, text).Raises? || (JsonAttempt(codec, text).Missing? && MatchAttempt(codec, text).Raises?)
    ensures r.Ok? && expected >= 0 ==> |r.value| <= expected
  {
    match JsonAttempt(codec, text)
    case Raises => Err(TypeFault)
    case Found(items) => Ok(PySlicePrefix(items, expected))
    case Missing =>
      match MatchAttempt(codec, text)
      case Raises => Err(TypeFault)
      case Found(items) => Ok(PySlicePrefix(items, expected))
      case Missing => Ok(FallbackItems(text, expected))
  }

  /** `_parse_batch_response`, with the numbered-list scan as the source's loop with `break`. */
  method ParseBatchResponse(text: string, expected: int, codec: Codec) returns (r: Result<seq<Value>, ParseFault>)
    ensures r == ParseSpec(text, expected, codec)
    ensures r.Ok? && expected >= 0 ==> |r.value| <= expected
  {
    var whole := JsonAttempt(codec, text);
    if whole.Raises? {
      return Err(TypeFault);
    } else if whole.Found? {
      return Ok(PySlicePrefix(whole.items, expected));
    }
    var located := MatchAttempt(codec, text);
    if located.Raises? {
      return Err(TypeFault);
    } else if located.Found? {
      return Ok(PySlicePrefix(located.items, expected));
    }
    var prompts := ScanNumbered(Split(Strip(text), '\n'), expected);
    if prompts == [] {
      return Ok(PySlicePrefix([VStr(Strip(text))], expected));
    }
    return Ok(PySlicePrefix(AsValues(prompts), expected));
  }

  /** The line loop of `_parse_batch_response`: collect numbered items, stop once `expected` are held. */
  method ScanNumbered(lines: seq<string>, expected: int) returns (prompts: seq<string>)
    ensures prompts == Collected(lines, expected)
  {
    prompts := [];
    ghost var rest := NumberedItems(lines);
    assert lines[0..] == lines;
    var i := 0;
    while i < |lines|
      invariant 0 <= i <= |lines|
      invariant rest == NumberedItems(lines[i..])
      invariant prompts + rest == NumberedItems(lines)
      invariant prompts == [] || |prompts| < expected
    {
      ghost var item := LineItem(lines[i]);
      ghost var next := NumberedItems(lines[i + 1..]);
      ScanStep(lines, i, prompts);
      var line := Strip(lines[i]);
      if IsNumbered(line) {
        LineItemNumbered(lines[i]);
        prompts := prompts + [ItemText(line)];
        if |prompts| >= expected {
          CollectedAtBreak(lines, prompts, next, expected);
          return;
        }
      } else {
        LineItemPlain(lines[i]);
        assert prompts + [] == prompts;
      }
      rest := next;
      i := i + 1;
    }
    assert rest == [];
    CollectedAtEnd(lines, expected);
  }

  /** One iteration of the scan keeps "held items ++ items still ahead == all items". */
  lemma ScanStep(lines: seq<string>, i: nat, held: seq<string>)
    requires i < |lines|
    requires held + NumberedItems(lines[i..]) == NumberedItems(lines)
    ensures held + LineItem(lines[i]) + NumberedItems(lines[i + 1..]) == NumberedItems(lines)
  {
    NumberedItemsAt(lines, i);
    Regroup(held, LineItem(lines[i]), NumberedItems(lines[i + 1..]), NumberedItems(lines[i..]), NumberedItems(lines));
  }

  lemma Regroup<T>(held: seq<T>, x: seq<T>, rest: seq<T>, tail: seq<T>, whole: seq<T>)
    requires tail == x + rest && held + tail == whole
    ensures held + x + rest == whole
  {
  }

  lemma NumberedItemsAt(lines: seq<string>, i: nat)
    requires i < |lines|
    ensures NumberedItems(lines[i..]) == LineItem(lines[i]) + NumberedItems(lines[i + 1..])
  {
    assert lines[i..][1..] == lines[i + 1..];
  }

  /** A raw line gives at most one item, and one exactly when its stripped form is numbered. */
  lemma LineItemIff(line: string)
    ensures |LineItem(line)| <= 1
    ensures LineItem(line) != [] <==> IsNumbered(Strip(line))
  {
  }

  lemma LineItemNumbered(x: string)
    requires IsNumbered(Strip(x))
    ensures LineItem(x) == [ItemText(Strip(x))]
  {
  }

  lemma LineItemPlain(x: string)
    requires !IsNumbered(Strip(x))
    ensures LineItem(x) == []
  {
  }

  lemma CollectedAtEnd(lines: seq<string>, expected: int)
    requires NumberedItems(lines) == [] || |NumberedItems(lines)| < expected
    ensures Collected(lines, expected) == NumberedItems(lines)
  {
  }

  lemma CollectedAtBreak(lines: seq<string>, held: seq<string>, rest: seq<string>, expected: int)
    requires held + rest == NumberedItems(lines)
    requires |held| == if expected >= 1 then expected else 1
    ensures Collected(lines, expected) == held
  {
    assert (held + rest)[..|held|] == held;
  }

  // ---------------------------------------------------------------------
  // Properties of the parse policy

  /** A reply that is itself a JSON object with a `prompts` list yields exactly its first `expected` items. */
  lemma WholeJsonPath(text: string, expected: int, codec: Codec, m: map<string, Value>)
    requires expected >= 0
    requires codec.decode(text) == Some(VDict(m))
    requires "prompts" in m && m["prompts"].VList?
    ensures var items := m["prompts"].items;
            ParseSpec(text, expected, codec) == Ok(items[..if expected < |items| then expected else |items|])
  {
  }

  /**
   * When the whole reply gives no list and does not raise (not JSON, an object without a `prompts`
   * list, or a list or string without a `"prompts"` element or substring), the
   * first located `{ ... }` piece that is yields exactly its first `expected` items.
   */
  lemma LocatedJsonPath(text: string, expected: int, codec: Codec, piece: string, m: map<string, Value>)
    requires expected >= 0
    requires JsonAttempt(codec, text).Missing?
    requires codec.search(text) == Some(piece)
    requires codec.decode(piece) == Some(VDict(m))
    requires "prompts" in m && m["prompts"].VList?
    ensures var items := m["prompts"].items;
            ParseSpec(text, expected, codec) == Ok(items[..if expected < |items| then expected else |items|])
  {
  }

  /** No line, once stripped, matches `^\d+\.`. */
  predicate NoNumberedLine(lines: seq<string>) {
    forall k :: 0 <= k < |lines| ==> !IsNumbered(Strip(lines[k]))
  }

  /** No numbered item at all exactly when no stripped line matches `^\d+\.`. */
  lemma {:induction false} NoNumberedItems(lines: seq<string>)
    ensures NumberedItems(lines) == [] <==> NoNumberedLine(lines)
  {
    if lines != [] {
      NoNumberedItems(lines[1..]);
      assert forall k :: 1 <= k < |lines| ==> lines[k] == lines[1..][k - 1];
      if IsNumbered(Strip(lines[0])) {
        LineItemNumbered(lines[0]);
      } else {
        LineItemPlain(lines[0]);
      }
    }
  }

  /**
   * The last resort: with no JSON and no numbered line, the result is the one trimmed reply,
   * never padded to `expected` (and nothing at all when `expected` is 0).
   */
  lemma LastResort(text: string, expected: int, codec: Codec)
    requires expected >= 0
    requires JsonAttempt(codec, text).Missing? && MatchAttempt(codec, text).Missing?
    requires NoNumberedLine(Split(Strip(text), '\n'))
    ensures ParseSpec(text, expected, codec) == Ok(if expected == 0 then [] else [VStr(Strip(text))])
  {
    var lines := Split(Strip(text), '\n');
    NoNumberedItems(lines);
    CollectedEmpty(lines, expected);
    FallbackPath(text, expected, codec);
  }

  lemma NoJsonFallback(text: string, expected: int, codec: Codec)
    requires codec.decode(text).None? && codec.search(text).None?
    ensures ParseSpec(text, expected, codec) == Ok(FallbackItems(text, expected))
  {
    FallbackPath(text, expected, codec);
  }

  lemma CollectedEmpty(lines: seq<string>, expected: int)
    requires NumberedItems(lines) == []
    ensures Collected(lines, expected) == []
  {
  }

  /** With neither JSON attempt finding a `prompts` list, the result is the line-scan fallback. */
  lemma FallbackPath(text: string, expected: int, codec: Codec)
    requires JsonAttempt(codec, text).Missing? && MatchAttempt(codec, text).Missing?
    ensures ParseSpec(text, expected, codec) == Ok(FallbackItems(text, expected))
  {
  }

  /** The first `n` items of a direct numbered scan, `n` being the scan's limit. */
  lemma CollectedPrefix(lines: seq<string>, expected: int)
    requires expected >= 1
    ensures var items := NumberedItems(lines);
            Collected(lines, expected) == items[..if expected < |items| then expected else |items|]
  {
  }

  // ---------------------------------------------------------------------
  // A numbered list written out by the model is read back item for item

  /** An item that survives being written as a numbered line: non-empty, trimmed, one line, not quoted. */
  predicate PlainItem(x: string) {
    x != [] && IsStripped(x) && '\n' !in x && !(x[0] == '"' && x[|x| - 1] == '"')
  }

  /** `k. x` */
  function NumberedLine(k: nat, x: string): string {
    NatToString(k) + ". " + x
  }

  /** The lines `start. xs[0]`, `start+1. xs[1]`, ... */
  function NumberedList(xs: seq<string>, start: nat): (r: seq<string>)
    ensures |r| == |xs|
    ensures forall k :: 0 <= k < |xs| ==> r[k] == NumberedLine(start + k, xs[k])
  {
    if xs == [] then [] else [NumberedLine(start, xs[0])] + NumberedList(xs[1..], start + 1)
  }

  lemma {:induction false} DigitRunOfDigits(d: string, s: string)
    requires forall k :: 0 <= k < |d| ==> IsDigit(d[k])
    requires s == [] || !IsDigit(s[0])
    ensures DigitRun(d + s) == |d|
  {
    if d != [] {
      assert (d + s)[1..] == d[1..] + s;
      DigitRunOfDigits(d[1..], s);
    } else {
      assert d + s == s;
    }
  }

  /** A numbered line is recognised, and its item is the text after `. `, unquoted. */
  lemma NumberedLineItem(k: nat, x: string)
    requires x != [] && IsStripped(x)
    ensures IsNumbered(NumberedLine(k, x)) && ItemText(NumberedLine(k, x)) == Unquote(x)
  {
    var d := NatToString(k);
    var line := NumberedLine(k, x);
    assert line == d + (". " + x);
    DigitRunOfDigits(d, ". " + x);
    assert line[|d|] == '.';
    assert line[|d| + 1..] == " " + x;
    assert TrimStart(" " + x) == x by {
      assert (" " + x)[1..] == x;
    }
    StripOfStripped(x);
  }

  /** Exactly one pair of surrounding double quotes is removed from an item. */
  lemma QuotedLineItem(k: nat, x: string)
    ensures var line := NumberedLine(k, "\"" + x + "\"");
            IsNumbered(line) && ItemText(line) == x
  {
    var q := "\"" + x + "\"";
    NumberedLineItem(k, q);
    assert q[1..|q| - 1] == x;
  }

  lemma NumberedLineStripped(k: nat, x: string)
    requires PlainItem(x)
    ensures IsStripped(NumberedLine(k, x)) && '\n' !in NumberedLine(k, x)
  {
    var d := NatToString(k);
    var line := NumberedLine(k, x);
    assert line == d + (". " + x);
    assert line[0] == d[0];
    assert line[|line| - 1] == x[|x| - 1];
    assert forall j :: 0 <= j < |d| ==> d[j] != '\n';
  }

  lemma {:induction false} NumberedListItems(xs: seq<string>, start: nat)
    requires forall k :: 0 <= k < |xs| ==> PlainItem(xs[k])
    ensures NumberedItems(NumberedList(xs, start)) == xs
  {
    if xs != [] {
      var lines := NumberedList(xs, start);
      NumberedLineItem(start, xs[0]);
      NumberedLineStripped(start, xs[0]);
      StripOfStripped(lines[0]);
      LineItemNumbered(lines[0]);
      assert lines[1..] == NumberedList(xs[1..], start + 1);
      NumberedListItems(xs[1..], start + 1);
      assert [xs[0]] + xs[1..] == xs;
    }
  }

  lemma {:induction false} JoinEnds(parts: seq<string>, sep: char)
    requires |parts| >= 1 && forall k :: 0 <= k < |parts| ==> parts[k] != []
    ensures var j := Join(parts, sep);
            j != [] && j[0] == parts[0][0] && j[|j| - 1] == parts[|parts| - 1][|parts[|parts| - 1]| - 1]
  {
    if |parts| > 1 {
      JoinEnds(parts[1..], sep);
    }
  }

  /** Joining non-empty trimmed pieces gives a trimmed text. */
  lemma JoinStripped(parts: seq<string>, sep: char)
    requires |parts| >= 1 && forall k :: 0 <= k < |parts| ==> parts[k] != [] && IsStripped(parts[k])
    ensures IsStripped(Join(parts, sep))
  {
    JoinEnds(parts, sep);
  }

  /** The line-scan fallback reads a written-out numbered list back item for item. */
  lemma NumberedListFallback(xs: seq<string>, text: string, expected: int)
    requires xs != [] && expected >= 1
    requires forall k :: 0 <= k < |xs| ==> PlainItem(xs[k])
    requires text == Join(NumberedList(xs, 1), '\n')
    ensures var n := if expected < |xs| then expected else |xs|;
            FallbackItems(text, expected) == AsValues(xs[..n])
  {
    var lines := NumberedList(xs, 1);
    NumberedListLines(xs, text);
    NumberedListItems(xs, 1);
    CollectedPrefix(lines, expected);
    var n := if expected < |xs| then expected else |xs|;
    FallbackOfFound(text, expected, xs[..n]);
  }

  /** A non-empty scan result within the bound is the fallback's answer as it stands. */
  lemma FallbackOfFound(text: string, expected: int, found: seq<string>)
    requires Collected(Split(Strip(text), '\n'), expected) == found
    requires found != [] && |found| <= expected
    ensures FallbackItems(text, expected) == AsValues(found)
  {
  }

  /** The trimmed text of a written-out numbered list splits back into its lines. */
  lemma NumberedListLines(xs: seq<string>, text: string)
    requires xs != []
    requires forall k :: 0 <= k < |xs| ==> PlainItem(xs[k])
    requires text == Join(NumberedList(xs, 1), '\n')
    ensures Split(Strip(text), '\n') == NumberedList(xs, 1)
  {
    var lines := NumberedList(xs, 1);
    forall k | 0 <= k < |lines|
      ensures '\n' !in lines[k] && lines[k] != [] && IsStripped(lines[k])
    {
      NumberedLineStripped(1 + k, xs[k]);
    }
    JoinStripped(lines, '\n');
    StripOfStripped(text);
    SplitJoin(lines, '\n');
  }

  /**
   * Writing non-quoted, one-line, trimmed items as the lines `1. x1`, `2. x2`, ... and handing the
   * text to the parser — when it holds no JSON — gives back the first `expected` items in order.
   */
  lemma NumberedListRoundTrip(xs: seq<string>, text: string, expected: int, codec: Codec)
    requires xs != [] && expected >= 1
    requires forall k :: 0 <= k < |xs| ==> PlainItem(xs[k])
    requires text == Join(NumberedList(xs, 1), '\n')
    requires codec.decode(text).None? && codec.search(text).None?
    ensures var n := if expected < |xs| then expected else |xs|;
            ParseSpec(text, expected, codec) == Ok(AsValues(xs[..n]))
  {
    NumberedListFallback(xs, text, expected);
    NoJsonFallback(text, expected, codec);
  }
}

/** Single byte ranges as served by apps/api/internal/upload/delivery.go; section 14.1.2 of RFC 9110. */
module ByteRange {
  import opened Wrappers

  const MIN_INT64 := -0x8000_0000_0000_0000
  const MAX_INT64 := 0x7fff_ffff_ffff_ffff

  predicate Int64(n: int) { MIN_INT64 <= n <= MAX_INT64 }

  /// Decimal integers, as strconv.ParseInt(text, 10, 64) and strconv.FormatInt read and write them

  function DigitsValue(text: string): nat
    requires forall i :: 0 <= i < |text| ==> IsDigit(text[i])
  {
    if text == [] then 0 else DigitsValue(text[..|text| - 1]) * 10 + DigitValue(text[|text| - 1])
  }

  predicate AllDigits(text: string) { forall i :: 0 <= i < |text| ==> IsDigit(text[i]) }

  /** An optional sign, at least one digit, nothing else, and a value that fits. */
  function ParseInt(text: string): Option<int> {
    var signed := text != [] && (text[0] == '+' || text[0] == '-');
    var digits := if signed then text[1..] else text;
    if digits == [] || !AllDigits(digits) then None
    else
      var magnitude: int := DigitsValue(digits);
      var value := if signed && text[0] == '-' then -magnitude else magnitude;
      if Int64(value) then Some(value) else None
  }

  function Decimal(n: nat): string {
    if n < 10 then [Digit(n)] else Decimal(n / 10) + [Digit(n % 10)]
  }

  lemma {:induction false} DecimalParses(n: nat)
    ensures Decimal(n) != [] && AllDigits(Decimal(n)) && DigitsValue(Decimal(n)) == n
    decreases n
  {
    if n < 10 {
    } else {
      DecimalParses(n / 10);
      var head, d := Decimal(n / 10), Digit(n % 10);
      assert (head + [d])[..|head|] == head;
    }
  }

  lemma ParseDecimal(n: nat)
    requires n <= MAX_INT64
    ensures ParseInt(Decimal(n)) == Some(n)
    ensures '-' !in Decimal(n)
  {
    DecimalParses(n);
    assert IsDigit(Decimal(n)[0]);
  }

  lemma SignedDigits(sign: string, digits: string)
    requires sign in {"", "+", "-"} && digits != [] && AllDigits(digits)
    ensures var v: int := DigitsValue(digits);
            ParseInt(sign + digits) ==
            if sign == "-" then (if v <= 0x8000_0000_0000_0000 then Some(-v) else None)
            else if v <= 0x7fff_ffff_ffff_ffff then Some(v) else None
  {
    assert IsDigit(digits[0]);
    if sign == "" {
      assert sign + digits == digits;
    } else {
      assert (sign + digits)[1..] == digits;
    }
  }

  /** Decimal numbers parse with and without a sign, as far as they fit into 64 bits, and no further. */
  lemma SignedDecimals(n: nat)
    ensures var v: int := n;
            && ParseInt("" + Decimal(n)) == (if v <= 0x7fff_ffff_ffff_ffff then Some(v) else None)
            && ParseInt("+" + Decimal(n)) == (if v <= 0x7fff_ffff_ffff_ffff then Some(v) else None)
            && ParseInt("-" + Decimal(n)) == (if v <= 0x8000_0000_0000_0000 then Some(-v) else None)
  {
    DecimalParses(n);
    SignedDigits("", Decimal(n));
    SignedDigits("+", Decimal(n));
    SignedDigits("-", Decimal(n));
  }

  /** Nothing but digits after an optional sign is a number. */
  lemma OnlyNumbersParse(text: string)
    ensures ParseInt(text).Some? ==>
              && text != [] && (IsDigit(text[0]) || ((text[0] == '+' || text[0] == '-') && |text| > 1))
              && forall i :: 1 <= i < |text| ==> IsDigit(text[i])
  {
    if ParseInt(text).Some? && !IsDigit(text[0]) {
      forall i | 1 <= i < |text| ensures IsDigit(text[i]) {
        assert text[1..][i - 1] == text[i];
      }
    }
  }

  /// parseRange

  /** `partial` and `valid` are the function's third and fourth results. */
  datatype Parsed = Parsed(start: int, end: int, partial: bool, valid: bool)

  const PREFIX := "bytes="
  const UNSATISFIABLE := Parsed(0, 0, true, false)

  function Min(a: int, b: int): int { if a < b then a else b }

  /** The index of the first '-', or the length. */
  function Dash(text: string): (i: nat)
    ensures i <= |text| && (i < |text| ==> text[i] == '-') && '-' !in text[..i]
  {
    if text == [] then 0 else if text[0] == '-' then 0
    else
      var i := 1 + Dash(text[1..]);
      assert text[..i] == [text[0]] + text[1..][..i - 1];
      i
  }

  function ParseRange(value: string, size: int): Parsed {
    if value == "" || size <= 0 || !(PREFIX <= value) then Parsed(0, size - 1, false, true)
    else
      var spec := value[|PREFIX|..];
      var cut := Dash(spec);
      if cut == |spec| then UNSATISFIABLE
      else
        var first, last := spec[..cut], spec[cut + 1..];
        if first == "" then
          var suffix := ParseInt(last);
          if suffix.None? || suffix.value <= 0 then UNSATISFIABLE
          else Parsed(if size - suffix.value < 0 then 0 else size - suffix.value, size - 1, true, true)
        else
          var start := ParseInt(first);
          if start.None? || start.value < 0 || start.value >= size then UNSATISFIABLE
          else if last == "" then Parsed(start.value, size - 1, true, true)
          else
            var end := ParseInt(last);
            if end.None? || end.value < start.value then UNSATISFIABLE
            else Parsed(start.value, Min(end.value, size - 1), true, true)
  }

  /** A valid partial result lies inside the object, and its length leaves neither it nor the int64 range. */
  lemma PartialInBounds(value: string, size: int)
    requires Int64(size)
    ensures var p := ParseRange(value, size);
            p.partial && p.valid ==>
              && 0 <= p.start <= p.end < size
              && Int64(p.end - p.start + 1) && 1 <= p.end - p.start + 1 <= size
  {
  }

  /** The one subtraction made on the way, for a suffix length, stays inside int64 for every text. */
  lemma SuffixStartFits(text: string, size: int)
    requires 0 < size <= MAX_INT64
    ensures ParseInt(text).Some? && ParseInt(text).value > 0 ==> Int64(size - ParseInt(text).value)
  {
  }

  lemma {:induction false} DashAt(head: string, tail: string)
    requires '-' !in head
    ensures Dash(head + "-" + tail) == |head|
    ensures (head + "-" + tail)[..|head|] == head && (head + "-" + tail)[|head| + 1..] == tail
  {
    var text := head + "-" + tail;
    if head == "" {
      assert text[0] == '-';
    } else {
      DashAt(head[1..], tail);
      assert text[1..] == head[1..] + "-" + tail;
      assert text[0] == head[0];
    }
  }

  /** The header text for an interval, for everything from a position on, and for the last `k` bytes. */
  function FromTo(start: nat, end: nat): string { PREFIX + (Decimal(start) + "-" + Decimal(end)) }
  function From(start: nat): string { PREFIX + (Decimal(start) + "-" + "") }
  function Last(k: nat): string { PREFIX + ("" + "-" + Decimal(k)) }

  lemma SpecOf(spec: string)
    ensures PREFIX <= PREFIX + spec && (PREFIX + spec)[|PREFIX|..] == spec
  {
  }

  /** Printing an interval and parsing it gives the interval, cut off at the end of the object; it is
      unsatisfiable exactly when it starts beyond the object or ends before it starts. */
  lemma FromToRoundTrip(start: nat, end: nat, size: int)
    requires 0 < size <= MAX_INT64 && start <= MAX_INT64 && end <= MAX_INT64
    ensures ParseRange(FromTo(start, end), size) ==
            if start < size && start <= end then Parsed(start, Min(end, size - 1), true, true) else UNSATISFIABLE
  {
    ParseDecimal(start);
    ParseDecimal(end);
    DecimalParses(start);
    DecimalParses(end);
    DashAt(Decimal(start), Decimal(end));
    SpecOf(Decimal(start) + "-" + Decimal(end));
  }

  /** Every accepted range is the range its own normal form asks for, whatever header it came from. */
  lemma AnswerIsNormalForm(value: string, size: int)
    requires size <= MAX_INT64
    ensures var p := ParseRange(value, size);
            p.partial && p.valid ==> ParseRange(FromTo(p.start, p.end), size) == p
  {
    var p := ParseRange(value, size);
    if p.partial && p.valid {
      FromToRoundTrip(p.start, p.end, size);
    }
  }

  lemma FromRoundTrip(start: nat, size: int)
    requires 0 < size <= MAX_INT64 && start <= MAX_INT64
    ensures ParseRange(From(start), size) == if start < size then Parsed(start, size - 1, true, true) else UNSATISFIABLE
  {
    ParseDecimal(start);
    DecimalParses(start);
    DashAt(Decimal(start), "");
    SpecOf(Decimal(start) + "-" + "");
  }

  lemma LastRoundTrip(k: nat, size: int)
    requires 0 < size <= MAX_INT64 && k <= MAX_INT64
    ensures ParseRange(Last(k), size) ==
            if k == 0 then UNSATISFIABLE else Parsed(if size < k then 0 else size - k, size - 1, true, true)
  {
    ParseDecimal(k);
    DashAt("", Decimal(k));
    SpecOf("" + "-" + Decimal(k));
  }

  /** The prefix decides whether a request is for a part at all. */
  lemma PartialIff(value: string, size: int)
    ensures ParseRange(value, size).partial <==> size > 0 && "bytes=" <= value
  {
  }

  /** What a request for a part must look like: a dash, and before and after it a suffix length, or a start
      inside the object and an end that is absent or not before the start. */
  lemma ValidIff(first: string, last: string, size: int)
    requires size > 0 && '-' !in first
    ensures ParseRange("bytes=" + (first + "-" + last), size).valid <==>
            if first == "" then ParseInt(last).Some? && ParseInt(last).value > 0
            else
              && ParseInt(first).Some? && 0 <= ParseInt(first).value < size
              && (last == "" || (ParseInt(last).Some? && ParseInt(last).value >= ParseInt(first).value))
  {
    DashAt(first, last);
    SpecOf(first + "-" + last);
  }

  lemma NoDashIsInvalid(spec: string, size: int)
    requires size > 0 && '-' !in spec
    ensures !ParseRange("bytes=" + spec, size).valid
  {
    SpecOf(spec);
  }

  /// prepareRangeResponse

  datatype Response =
    | Full(data: seq<Byte>)
    | Partial(contentRange: (int, int, int), data: seq<Byte>)
    | NotSatisfiable(size: int)

  /** The object as a reader: what is left of it. */
  class Reader {
    var rest: seq<Byte>

    constructor (data: seq<Byte>)
      ensures rest == data
    {
      rest := data;
    }

    /** io.CopyN to nowhere: drops up to `n` bytes; running out is not an error to the caller. */
    method Discard(n: nat)
      modifies this
      ensures rest == if n <= |old(rest)| then old(rest)[n..] else []
    {
      rest := if n <= |rest| then rest[n..] else [];
    }

    /** io.ReadFull: fills the whole buffer or fails. */
    method ReadFull(buffer: array<Byte>) returns (ok: bool)
      modifies this, buffer
      ensures ok == (buffer.Length <= |old(rest)|)
      ensures ok ==> buffer[..] == old(rest)[..buffer.Length] && rest == old(rest)[buffer.Length..]
    {
      ok := buffer.Length <= |rest|;
      if ok {
        forall i | 0 <= i < buffer.Length {
          buffer[i] := rest[i];
        }
        rest := rest[buffer.Length..];
      } else {
        rest := [];
      }
    }
  }

  function Answer(content: seq<Byte>, size: int, p: Parsed): Response {
    if !p.partial then Full(content)
    else if !p.valid || !(0 <= p.start <= p.end < |content|) then NotSatisfiable(size)
    else Partial((p.start, p.end, size), content[p.start..p.end + 1])
  }

  function Served(content: seq<Byte>, size: int, header: string): Response {
    Answer(content, size, ParseRange(header, size))
  }

  /** A request without a Range header, or with one in another unit, gets the whole object. */
  lemma WholeObjectServed(content: seq<Byte>, size: int, header: string)
    requires header == "" || !("bytes=" <= header) || size <= 0
    ensures Served(content, size, header) == Full(content)
  {
    PartialIff(header, size);
  }

  /** Every other request gets a part or is refused: refused if it is invalid or the object turns out shorter
      than the part needs, and otherwise exactly the bytes from start to end. */
  lemma PartServed(content: seq<Byte>, size: int, header: string)
    requires size > 0 && "bytes=" <= header
    ensures var p := ParseRange(header, size);
            && (!p.valid || p.end >= |content| ==> Served(content, size, header) == NotSatisfiable(size))
            && (p.valid && p.end < |content| ==>
                  && 0 <= p.start <= p.end
                  && Served(content, size, header) == Partial((p.start, p.end, size), content[p.start..p.end + 1]))
  {
    PartialIff(header, size);
  }

  method PrepareRangeResponse(reader: Reader, size: int, header: string) returns (r: Response)
    requires Int64(size)
    modifies reader
    ensures r == Served(old(reader.rest), size, header)
  {
    var p := ParseRange(header, size);
    if p.partial && !p.valid {
      return NotSatisfiable(size);
    }
    if p.partial {
      PartialInBounds(header, size);
      reader.Discard(p.start);
      var body := new Byte[p.end - p.start + 1];
      var ok := reader.ReadFull(body);
      if !ok {
        return NotSatisfiable(size);
      }
      return Partial((p.start, p.end, size), body[..]);
    }
    return Full(reader.rest);
  }

  /** Cut points of the whole object: strictly increasing from 0 to its size. */
  predicate Cuts(points: seq<nat>, size: int) {
    && |points| >= 2 && points[0] == 0 && points[|points| - 1] == size
    && forall i :: 0 <= i < |points| - 1 ==> points[i] < points[i + 1]
  }

  lemma CutsInside(points: seq<nat>, size: int, i: nat)
    requires Cuts(points, size) && i < |points|
    ensures points[i] <= size && (i < |points| - 1 ==> points[i] < size)
    decreases |points| - i
  {
    if i < |points| - 1 {
      CutsInside(points, size, i + 1);
    }
  }

  lemma PartOf(content: seq<Byte>, size: int, header: string, start: nat, end: nat)
    requires ParseRange(header, size) == Parsed(start, end, true, true) && start <= end < |content|
    ensures Served(content, size, header) == Partial((start, end, size), content[start..end + 1])
  {
  }

  /** A request for one piece is answered with exactly that piece. */
  lemma PieceBody(content: seq<Byte>, a: nat, b: nat)
    requires a < b <= |content| <= MAX_INT64
    ensures Served(content, |content|, FromTo(a, b - 1)) == Partial((a, b - 1, |content|), content[a..b])
  {
    var header := FromTo(a, b - 1);
    FromToRoundTrip(a, b - 1, |content|);
    assert Min(b - 1, |content| - 1) == b - 1;
    PartOf(content, |content|, header, a, b - 1);
  }

  /** The bodies of some answers, joined. */
  function Bodies(answers: seq<Response>): seq<Byte> {
    if answers == [] then []
    else
      var last := answers[|answers| - 1];
      Bodies(answers[..|answers| - 1]) + if last.Partial? then last.data else []
  }

  /** The i-th answer is the piece between the i-th cut and the next. */
  predicate IsPiece(content: seq<Byte>, points: seq<nat>, answers: seq<Response>, i: nat) {
    && i < |answers| && i + 1 < |points| && points[i] < points[i + 1] <= |content|
    && answers[i].Partial? && answers[i].data == content[points[i]..points[i + 1]]
  }

  /** The i-th answer is what the server says to a request for that piece. */
  predicate Fetched(content: seq<Byte>, points: seq<nat>, answers: seq<Response>, i: nat) {
    && i < |answers| && i + 1 < |points| && points[i] < points[i + 1]
    && answers[i] == Served(content, |content|, FromTo(points[i], points[i + 1] - 1))
  }

  lemma FetchedIsPiece(content: seq<Byte>, points: seq<nat>, answers: seq<Response>, i: nat)
    requires Cuts(points, |content|) && |content| <= MAX_INT64 && Fetched(content, points, answers, i)
    ensures IsPiece(content, points, answers, i)
  {
    CutsInside(points, |content|, i + 1);
    PieceBody(content, points[i], points[i + 1]);
  }

  lemma {:induction false} BodiesArePrefix(content: seq<Byte>, points: seq<nat>, answers: seq<Response>)
    requires Cuts(points, |content|) && |answers| < |points|
    requires forall i: nat :: i < |answers| ==> IsPiece(content, points, answers, i)
    ensures points[|answers|] <= |content| && Bodies(answers) == content[..points[|answers|]]
  {
    if answers == [] {
    } else {
      var n := |answers|;
      var init := answers[..n - 1];
      forall i: nat | i < n - 1 ensures IsPiece(content, points, init, i) {
        assert IsPiece(content, points, answers, i);
      }
      BodiesArePrefix(content, points, init);
      assert IsPiece(content, points, answers, n - 1);
      assert content[..points[n]] == content[..points[n - 1]] + content[points[n - 1]..points[n]];
    }
  }

  /** Fetching an object piece by piece, along any consecutive cut, gives back the object. */
  lemma PiecesRebuildObject(content: seq<Byte>, points: seq<nat>, answers: seq<Response>)
    requires Cuts(points, |content|) && |content| <= MAX_INT64 && |answers| == |points| - 1
    requires forall i: nat :: i < |answers| ==> Fetched(content, points, answers, i)
    ensures Bodies(answers) == content
  {
    forall i: nat | i < |answers| ensures IsPiece(content, points, answers, i) {
      FetchedIsPiece(content, points, answers, i);
    }
    BodiesArePrefix(content, points, answers);
    assert content[..points[|answers|]] == content;
  }
}

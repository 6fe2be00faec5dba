/** Which control lines and packets a read accepts, and why it refuses the others. */
module Acceptance {
  import opened Base
  import opened Text
  import Decimal
  import opened Packet
  import opened Reads = Framing
  import opened Codec

  // ---- Control lines ----

  predicate Plain(keyword: string) {
    || keyword == "INFO" || keyword == "CONNECT" || keyword == "SUB" || keyword == "UNSUB"
    || keyword == "PING" || keyword == "PONG" || keyword == "+OK" || keyword == "-ERR"
  }

  /** The keyword and the number of words of a line with one size, and of one with two. */
  predicate OneSize(w: seq<string>) {
    |w| > 0 && ((w[0] == "PUB" && 3 <= |w| <= 4) || (w[0] == "MSG" && 4 <= |w| <= 5))
  }

  predicate TwoSizes(w: seq<string>) {
    |w| > 0 && ((w[0] == "HPUB" && 4 <= |w| <= 5) || (w[0] == "HMSG" && 5 <= |w| <= 6))
  }

  /** A decimal number within the integer range. */
  predicate Denotes(text: string, n: nat) {
    text != "" && Decimal.AllDigits(text) && Decimal.Value(text) == n && n <= MAX_INT
  }

  predicate Number(text: string) {
    text != "" && Decimal.AllDigits(text) && Decimal.Value(text) <= MAX_INT
  }

  /** The framing a line stands for: the sizes are its last words. */
  predicate Announces(line: string, f: Framing) {
    WordsAnnounce(Split(line, ' '), f)
  }

  predicate WordsAnnounce(w: seq<string>, f: Framing)
    requires |w| > 0
  {
    match f
    case Line => Plain(w[0])
    case Payload(bytes) => OneSize(w) && Denotes(w[|w| - 1], bytes)
    case Headers(header, total) =>
      TwoSizes(w) && Denotes(w[|w| - 2], header) && Denotes(w[|w| - 1], total) && header <= total
  }

  /** The bounds a reader puts on it: the header and the payload part, each by itself. */
  predicate Bounded(f: Framing, limits: Limits) {
    match f
    case Line => true
    case Payload(bytes) => bytes <= limits.maxPayload
    case Headers(header, total) => header <= limits.maxHeader && total - header <= limits.maxPayload
  }

  predicate Sized(keyword: string) {
    keyword == "PUB" || keyword == "MSG" || keyword == "HPUB" || keyword == "HMSG"
  }

  lemma WordsClassified(w: seq<string>, limits: Limits)
    requires |w| > 0
    ensures ClassifyWords(w[0], w, limits) ==
            if OneSize(w) then PayloadFraming(w[0], w[|w| - 1], limits)
            else if TwoSizes(w) then HeadersFraming(w[0], w[|w| - 2], w[|w| - 1], limits)
            else if Plain(w[0]) then Ok(Line)
            else if Sized(w[0]) then Error(MalformedLine)
            else Error(UnknownOperation(w[0]))
  {
  }

  lemma OneKind(w: seq<string>)
    ensures !(OneSize(w) && TwoSizes(w)) && (|w| > 0 && (OneSize(w) || TwoSizes(w)) ==> Sized(w[0]) && !Plain(w[0]))
  {
  }

  lemma PayloadExactly(keyword: string, value: string, limits: Limits, f: Framing)
    ensures PayloadFraming(keyword, value, limits) == Ok(f) <==>
            f.Payload? && Denotes(value, f.bytes) && f.bytes <= limits.maxPayload
  {
  }

  lemma HeadersExactly(keyword: string, first: string, last: string, limits: Limits, f: Framing)
    ensures HeadersFraming(keyword, first, last, limits) == Ok(f) <==>
            && f.Headers? && Denotes(first, f.headerBytes) && Denotes(last, f.totalBytes) && f.headerBytes <= f.totalBytes
            && f.headerBytes <= limits.maxHeader && f.totalBytes - f.headerBytes <= limits.maxPayload
  {
  }

  lemma WordsExactly(w: seq<string>, limits: Limits, f: Framing)
    requires |w| > 0
    ensures ClassifyWords(w[0], w, limits) == Ok(f) <==> WordsAnnounce(w, f) && Bounded(f, limits)
  {
    WordsClassified(w, limits);
    OneKind(w);
    if OneSize(w) {
      PayloadExactly(w[0], w[|w| - 1], limits, f);
    } else if TwoSizes(w) {
      HeadersExactly(w[0], w[|w| - 2], w[|w| - 1], limits, f);
    }
  }

  /** A line is accepted as a framing if and only if it announces it, within the bounds. */
  lemma ClassifyExactly(line: string, limits: Limits, f: Framing)
    ensures Classify(line, limits) == Ok(f) <==> Announces(line, f) && Bounded(f, limits)
  {
    FirstWordIsFirst(line);
    WordsExactly(Words(line), limits, f);
  }

  /** What is wrong with one size, or with two, as the error. */
  predicate FaultySize(keyword: string, last: string, limits: Limits, e: PacketError) {
    if !Number(last) then e == InvalidLength(keyword, last)
    else Decimal.Value(last) > limits.maxPayload && e == PayloadTooLarge(Decimal.Value(last), limits.maxPayload)
  }

  predicate FaultySizes(keyword: string, first: string, last: string, limits: Limits, e: PacketError) {
    if !Number(first) then e == InvalidLength(keyword, first)
    else if !Number(last) then e == InvalidLength(keyword, last)
    else
      var header, total := Decimal.Value(first), Decimal.Value(last);
      if header > total then e == InvalidLengths(keyword)
      else if header > limits.maxHeader then e == HeadersTooLarge(header, limits.maxHeader)
      else total - header > limits.maxPayload && e == PayloadTooLarge(total - header, limits.maxPayload)
  }

  /** The first thing wrong with a line, as its error. */
  predicate Faulty(line: string, limits: Limits, e: PacketError) {
    FaultyWords(Split(line, ' '), limits, e)
  }

  predicate FaultyWords(w: seq<string>, limits: Limits, e: PacketError)
    requires |w| > 0
  {
    if OneSize(w) then FaultySize(w[0], w[|w| - 1], limits, e)
    else if TwoSizes(w) then FaultySizes(w[0], w[|w| - 2], w[|w| - 1], limits, e)
    else if Sized(w[0]) then e == MalformedLine
    else !Plain(w[0]) && e == UnknownOperation(w[0])
  }

  lemma PayloadFault(keyword: string, value: string, limits: Limits, e: PacketError)
    ensures PayloadFraming(keyword, value, limits) == Error(e) <==> FaultySize(keyword, value, limits, e)
  {
  }

  lemma HeadersFault(keyword: string, first: string, last: string, limits: Limits, e: PacketError)
    ensures HeadersFraming(keyword, first, last, limits) == Error(e) <==> FaultySizes(keyword, first, last, limits, e)
  {
  }

  lemma PlainOrSized(keyword: string)
    ensures !(Plain(keyword) && Sized(keyword))
  {
  }

  lemma WordsFault(w: seq<string>, limits: Limits, e: PacketError)
    requires |w| > 0
    ensures ClassifyWords(w[0], w, limits) == Error(e) <==> FaultyWords(w, limits, e)
  {
    WordsClassified(w, limits);
    OneKind(w);
    PlainOrSized(w[0]);
    if OneSize(w) {
      PayloadFault(w[0], w[|w| - 1], limits, e);
    } else if TwoSizes(w) {
      HeadersFault(w[0], w[|w| - 2], w[|w| - 1], limits, e);
    }
  }

  lemma ClassifyFault(line: string, limits: Limits, e: PacketError)
    ensures Classify(line, limits) == Error(e) <==> Faulty(line, limits, e)
  {
    FirstWordIsFirst(line);
    WordsFault(Words(line), limits, e);
  }

  // ---- Packets ----

  /** `data` begins with the packet: its line ends at the first CRLF and announces a body that is there and is
      followed by CRLF, and every size is within its bound. */
  predicate Begins(data: string, limits: Limits, p: Packet) {
    && FindCrlf(data, 0) == Some(|p.line|) && |ToString(p)| <= |data| && data[..|ToString(p)|] == ToString(p)
    && |p.line| <= limits.maxLine && Announces(p.line, p.framing) && Bounded(p.framing, limits)
    && |ToString(p)| <= limits.maxPacket
  }

  predicate Usable(limits: Limits) {
    0 < limits.maxLine <= MAX_INT - 2 && limits.maxHeader > 0 && limits.maxPayload >= 0 && limits.maxPacket > 0
  }

  lemma FramedLine(line: string, limits: Limits, f: Framing)
    requires Announces(line, f) && Bounded(f, limits)
    ensures FrameLine(line, limits) ==
            if |line| > limits.maxLine then Error(LineTooLong(limits.maxLine))
            else if WireSize(|line|, f) > MAX_INT then Error(InvalidLength("packet", "overflow"))
            else if WireSize(|line|, f) > limits.maxPacket then Error(PacketTooLarge(WireSize(|line|, f), limits.maxPacket))
            else Ok(Frame(f, WireSize(|line|, f)))
  {
    ClassifyExactly(line, limits, f);
    PacketSizeExact(|line|, f);
  }

  lemma PrintedSize(p: Packet)
    ensures |ToString(p)| == WireSize(|p.line|, p.framing)
  {
  }

  lemma PrintedParts(p: Packet, data: string)
    requires |ToString(p)| <= |data| && data[..|ToString(p)|] == ToString(p)
    ensures var n, size := |p.line|, |ToString(p)|;
            && n <= |data| && data[..n] == p.line
            && n + 2 + |p.body| <= |data| && (p.framing.Line? ==> p.body == "")
            && data[n + 2..n + 2 + |p.body|] == p.body
            && (!p.framing.Line? ==> data[size - 2] == '\r' && data[size - 1] == '\n')
  {
    var s := ToString(p);
    assert forall i :: 0 <= i < |s| ==> data[i] == s[i];
    assert s[..|p.line|] == p.line;
    if !p.framing.Line? {
      assert s[|p.line| + 2..|p.line| + 2 + |p.body|] == p.body;
    }
  }

  lemma CutPrinted(data: string, p: Packet)
    requires |ToString(p)| <= |data| && data[..|ToString(p)|] == ToString(p)
    requires p.framing.Headers? ==> p.framing.headerBytes <= p.framing.totalBytes
    ensures Cut(data, |p.line|, Frame(p.framing, WireSize(|p.line|, p.framing))) == Ok(p)
  {
    PrintedSize(p);
    PrintedParts(p, data);
  }

  lemma BeginsReads(data: string, eod: bool, limits: Limits, p: Packet)
    requires Usable(limits) && Begins(data, limits, p)
    ensures ReadBytes(data, eod, limits) == Ok(p)
  {
    PrintedSize(p);
    PrintedParts(p, data);
    FramedLine(p.line, limits, p.framing);
    CutPrinted(data, p);
  }

  lemma FramedAnnounces(line: string, limits: Limits, frame: Frame)
    requires FrameLine(line, limits) == Ok(frame)
    ensures Announces(line, frame.framing) && Bounded(frame.framing, limits)
    ensures |line| <= limits.maxLine && frame.size == WireSize(|line|, frame.framing) <= limits.maxPacket
  {
    ClassifyExactly(line, limits, frame.framing);
    PacketSizeExact(|line|, frame.framing);
  }

  lemma ReadsBegin(data: string, eod: bool, limits: Limits, p: Packet)
    requires ReadBytes(data, eod, limits) == Ok(p)
    ensures Usable(limits) && Begins(data, limits, p)
  {
    var lineEnd := FindCrlf(data, 0).value;
    var frame := FrameLine(data[..lineEnd], limits).value;
    FramedAnnounces(data[..lineEnd], limits, frame);
    CutExact(data, lineEnd, frame);
  }

  /** Exactly which packets a read of some bytes returns, whatever an encoder would have sent. */
  lemma ReadExactly(data: string, eod: bool, limits: Limits, p: Packet)
    ensures ReadBytes(data, eod, limits) == Ok(p) <==> Usable(limits) && Begins(data, limits, p)
  {
    if Usable(limits) && Begins(data, limits, p) {
      BeginsReads(data, eod, limits, p);
    }
    if ReadBytes(data, eod, limits) == Ok(p) {
      ReadsBegin(data, eod, limits, p);
    }
  }

  /** Without other limits: lines of 4 KiB, headers of 64 KiB, payloads of 1 MiB and packets of 2 MiB. */
  lemma DefaultReads(data: string, eod: bool, p: Packet)
    ensures ReadBytes(data, eod, DEFAULT_LIMITS) == Ok(p) <==> Begins(data, Limits(4096, 65536, 1048576, 2097152), p)
  {
    ReadExactly(data, eod, DEFAULT_LIMITS, p);
  }

  /** The first thing wrong with the bytes at hand, as the error of the read. */
  ghost predicate Wrong(data: string, eod: bool, limits: Limits, e: PacketError) {
    if limits.maxLine <= 0 || limits.maxHeader <= 0 || limits.maxPayload < 0 || limits.maxPacket <= 0 then e == InvalidLimits
    else if limits.maxLine > MAX_INT - 2 then e == LineTooLong(limits.maxLine)
    else match FindCrlf(data, 0)
      case None =>
        if InternalBreak(data) then e == MalformedLine
        else if |data| >= limits.maxLine + 2 then e == LineTooLong(limits.maxLine)
        else e == if !eod then NeedMore else if data == "" then EndOfInput else UnexpectedEnd
      case Some(n) =>
        if n > limits.maxLine then e == LineTooLong(limits.maxLine)
        else Faulty(data[..n], limits, e) || exists f :: Announces(data[..n], f) && Bounded(f, limits)
                                                         && WrongBody(data, n, f, eod, limits, e)
  }

  predicate WrongBody(data: string, n: nat, f: Framing, eod: bool, limits: Limits, e: PacketError) {
    var size := if f.Line? then n + 2 else n + 2 + BodyLength(f) + 2;
    if size > MAX_INT then e == InvalidLength("packet", "overflow")
    else if size > limits.maxPacket then e == PacketTooLarge(size, limits.maxPacket)
    else if |data| < size then e == if eod then UnexpectedEnd else NeedMore
    else !f.Line? && !(data[size - 2] == '\r' && data[size - 1] == '\n') && e == InvalidTerminator
  }

  lemma WrongFramed(data: string, n: nat, f: Framing, eod: bool, limits: Limits, e: PacketError)
    requires Usable(limits) && FindCrlf(data, 0) == Some(n) && n <= limits.maxLine
    requires Announces(data[..n], f) && Bounded(f, limits)
    ensures ReadBytes(data, eod, limits) == Error(e) <==> WrongBody(data, n, f, eod, limits, e)
  {
    FramedLine(data[..n], limits, f);
  }

  lemma OneFraming(line: string, limits: Limits, f: Framing, g: Framing)
    requires Announces(line, f) && Bounded(f, limits) && Announces(line, g) && Bounded(g, limits)
    ensures f == g
  {
    ClassifyExactly(line, limits, f);
    ClassifyExactly(line, limits, g);
  }

  lemma WrongLine(data: string, n: nat, eod: bool, limits: Limits, e: PacketError)
    requires Usable(limits) && FindCrlf(data, 0) == Some(n) && n <= limits.maxLine
    ensures ReadBytes(data, eod, limits) == Error(e) <==> Wrong(data, eod, limits, e)
  {
    var line := data[..n];
    ClassifyFault(line, limits, e);
    match Classify(line, limits)
    case Error(fault) =>
      ClassifyFault(line, limits, fault);
      forall f ensures !(Announces(line, f) && Bounded(f, limits)) {
        ClassifyExactly(line, limits, f);
      }
    case Ok(f) =>
      ClassifyExactly(line, limits, f);
      WrongFramed(data, n, f, eod, limits, e);
      forall g | Announces(line, g) && Bounded(g, limits) ensures g == f {
        OneFraming(line, limits, f, g);
      }
  }

  /** Exactly which error a read of some bytes gives. */
  lemma RefusedExactly(data: string, eod: bool, limits: Limits, e: PacketError)
    ensures ReadBytes(data, eod, limits) == Error(e) <==> Wrong(data, eod, limits, e)
  {
    if Usable(limits) && FindCrlf(data, 0).Some? && FindCrlf(data, 0).value <= limits.maxLine {
      WrongLine(data, FindCrlf(data, 0).value, eod, limits, e);
    }
  }

  /** A packet with headers that a reader takes and an encoder under the same limits refuses: header and payload each
      fit, but not the two together. */
  lemma ReaderTakesMore(data: string, eod: bool, limits: Limits, p: Packet)
    requires Usable(limits) && Begins(data, limits, p) && p.framing.Headers? && p.framing.totalBytes > limits.maxPayload
    ensures ReadBytes(data, eod, limits) == Ok(p)
    ensures CheckLimits(limits, p) == Some(PacketFailure(PayloadTooLarge(p.framing.totalBytes, limits.maxPayload)))
  {
    BeginsReads(data, eod, limits, p);
  }

  /** The same over a reader, however its bytes are cut: a packet whose line holds no bare CR or LF is returned and
      what follows it stays. */
  lemma SlicesReadExactly(slices: seq<string>, eod: bool, limits: Limits, p: Packet)
    requires NonEmpty(slices) && Usable(limits) && Begins(Flatten(slices), limits, p) && !LineBreak(p.line)
    ensures var (result, rest) := Read(slices, eod, limits);
            result == Ok(p) && Flatten(rest) == Flatten(slices)[|ToString(p)|..]
  {
    var data := Flatten(slices);
    PrintedParts(p, data);
    SlicesIrrelevant(slices, eod, limits);
    BeginsReads(data, eod, limits, p);
    Conserves(slices, eod, limits);
  }
}

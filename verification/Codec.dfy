/** Programs on the wire: the console parses a text into bytes, the CPU decodes the bytes
    into a list of instructions (consola/src/consola_parser.c, consola_serializer.c,
    utils/src/instruccion.c, utils/src/buffer.c).
 */
module Codec {
  import Paging

  type Byte = Paging.Byte

  /** `uint32_t`. */
  type Word = n: nat | n < 0x1_0000_0000

  // ---------------------------------------------------------------- bytes

  /** The four bytes of a word, least significant first. */
  function WordBytes(n: Word): (b: seq<Byte>)
    ensures |b| == 4
  {
    [n % 256, n / 256 % 256, n / 65536 % 256, n / 16777216]
  }

  function WordOf(b: seq<Byte>): Word
    requires |b| == 4
  {
    var b0: int, b1: int, b2: int, b3: int := b[0], b[1], b[2], b[3];
    b0 + 256 * b1 + 65536 * b2 + 16777216 * b3
  }

  lemma WordRoundTrip(n: Word)
    ensures WordOf(WordBytes(n)) == n
  {
  }

  lemma BytesRoundTrip(b: seq<Byte>)
    requires |b| == 4
    ensures WordBytes(WordOf(b)) == b
  {
    var n := WordOf(b);
    var b0: int, b1: int, b2: int, b3: int := b[0], b[1], b[2], b[3];
    assert n % 256 == b0;
    assert n / 256 == b1 + 256 * b2 + 65536 * b3;
    assert n / 65536 == b2 + 256 * b3;
    assert n / 16777216 == b3;
  }

  // ---------------------------------------------------------------- instructions

  /** `t_tipo_instruccion`; `Code` is the enumeration's number. */
  datatype Kind = COPY | EXIT | IO | NO_OP | READ | WRITE

  function Code(k: Kind): Byte {
    match k case COPY => 0 case EXIT => 1 case IO => 2 case NO_OP => 3 case READ => 4 case WRITE => 5
  }

  datatype Option<T> = None | Some(value: T)

  function KindOf(b: Byte): (k: Option<Kind>)
    ensures k.Some? ==> Code(k.value) == b
    ensures k.None? ==> b > 5
  {
    if b == 0 then Some(COPY) else if b == 1 then Some(EXIT) else if b == 2 then Some(IO)
    else if b == 3 then Some(NO_OP) else if b == 4 then Some(READ) else if b == 5 then Some(WRITE)
    else None
  }

  /** How many operands travel. */
  function Arity(k: Kind): nat {
    match k
    case COPY => 2
    case WRITE => 2
    case IO => 1
    case READ => 1
    case NO_OP => 0
    case EXIT => 0
  }

  /** `t_instruccion`; operands that did not travel are DEFAULT. */
  datatype Instr = Instr(kind: Kind, op1: Word, op2: Word)

  const DEFAULT: Word := 0xFFFF_FFFF

  predicate Canonical(i: Instr) {
    (Arity(i.kind) < 1 ==> i.op1 == DEFAULT) && (Arity(i.kind) < 2 ==> i.op2 == DEFAULT)
  }

  // ---------------------------------------------------------------- encoding

  /** The three packing functions of the serializer. */
  function Packed(k: Kind, op1: Word, op2: Word): (b: seq<Byte>)
    ensures |b| == 1 + 4 * Arity(k)
  {
    [Code(k)]
    + (if Arity(k) >= 1 then WordBytes(op1) else [])
    + (if Arity(k) >= 2 then WordBytes(op2) else [])
  }

  /** The bytes of every instruction, with the numbers of the enumeration. */
  lemma BytesByKind(op1: Word, op2: Word)
    ensures Packed(COPY, op1, op2) == [0] + WordBytes(op1) + WordBytes(op2)
    ensures Packed(EXIT, op1, op2) == [1]
    ensures Packed(IO, op1, op2) == [2] + WordBytes(op1)
    ensures Packed(NO_OP, op1, op2) == [3]
    ensures Packed(READ, op1, op2) == [4] + WordBytes(op1)
    ensures Packed(WRITE, op1, op2) == [5] + WordBytes(op1) + WordBytes(op2)
  {
  }

  function Encode(program: seq<Instr>): seq<Byte> {
    if program == [] then []
    else Packed(program[0].kind, program[0].op1, program[0].op2) + Encode(program[1..])
  }

  lemma {:induction false} EncodeAppend(a: seq<Instr>, b: seq<Instr>)
    ensures Encode(a + b) == Encode(a) + Encode(b)
  {
    if a == [] {
      assert a + b == b;
    } else {
      assert (a + b)[1..] == a[1..] + b;
      EncodeAppend(a[1..], b);
    }
  }

  // ---------------------------------------------------------------- decoding

  /** A decoded program and the bytes left over; the process exits with an error on an
      unknown code or an empty buffer; Overrun is a read past the end of the buffer, of
      which the source makes nothing. */
  datatype Decoded = Program(list: seq<Instr>, rest: seq<Byte>) | Fatal | Overrun

  /** One instruction off the front. */
  datatype Head = Head(i: Instr, rest: seq<Byte>) | BadHead | ShortHead

  function DecodeHead(b: seq<Byte>): (h: Head)
    ensures h.Head? ==> |h.rest| < |b|
  {
    if b == [] then BadHead
    else
      var k := KindOf(b[0]);
      if k.None? then BadHead
      else
        var n := Arity(k.value);
        if |b| < 1 + 4 * n then (if |b| == 1 || |b| == 5 then BadHead else ShortHead)
        else
          Head(Instr(k.value,
                     if n >= 1 then WordOf(b[1..5]) else DEFAULT,
                     if n >= 2 then WordOf(b[5..9]) else DEFAULT),
               b[1 + 4 * n..])
  }

  /** `instruccion_list_create_from_buffer`. */
  function Decode(b: seq<Byte>): Decoded
    decreases |b|
  {
    match DecodeHead(b)
    case BadHead => Fatal
    case ShortHead => Overrun
    case Head(i, rest) =>
      if i.kind == EXIT then Program([i], rest)
      else
        match Decode(rest)
        case Program(list, left) => Program([i] + list, left)
        case d => d
  }

  /** An operand that did not travel is -1 as an unsigned word. */
  lemma UnusedOperands(n: Word, rest: seq<Byte>)
    ensures DecodeHead([1] + rest) == Head(Instr(EXIT, 0xFFFF_FFFF, 0xFFFF_FFFF), rest)
    ensures DecodeHead([3] + rest) == Head(Instr(NO_OP, 0xFFFF_FFFF, 0xFFFF_FFFF), rest)
    ensures DecodeHead([2] + WordBytes(n) + rest) == Head(Instr(IO, n, 0xFFFF_FFFF), rest)
    ensures DecodeHead([4] + WordBytes(n) + rest) == Head(Instr(READ, n, 0xFFFF_FFFF), rest)
  {
    BytesByKind(n, DEFAULT);
    HeadOfPacked(Instr(EXIT, DEFAULT, DEFAULT), rest);
    HeadOfPacked(Instr(NO_OP, DEFAULT, DEFAULT), rest);
    HeadOfPacked(Instr(IO, n, DEFAULT), rest);
    HeadOfPacked(Instr(READ, n, DEFAULT), rest);
  }

  /** A program as the decoder delivers it: canonical, its only EXIT at the end. */
  predicate WellFormed(program: seq<Instr>) {
    && |program| > 0
    && (forall i | 0 <= i < |program| :: Canonical(program[i]))
    && (forall i | 0 <= i < |program| :: program[i].kind == EXIT <==> i == |program| - 1)
  }

  lemma HeadOfPacked(i: Instr, rest: seq<Byte>)
    requires Canonical(i)
    ensures DecodeHead(Packed(i.kind, i.op1, i.op2) + rest) == Head(i, rest)
  {
    var n := Arity(i.kind);
    var b := Packed(i.kind, i.op1, i.op2) + rest;
    assert KindOf(b[0]) == Some(i.kind);
    WordRoundTrip(i.op1);
    WordRoundTrip(i.op2);
    assert n >= 1 ==> b[1..5] == WordBytes(i.op1);
    assert n >= 2 ==> b[5..9] == WordBytes(i.op2);
    assert b[1 + 4 * n..] == rest;
  }

  /** Decoding the encoding gives the program back and consumes exactly its bytes. */
  lemma {:induction false} DecodeEncode(program: seq<Instr>, rest: seq<Byte>)
    requires WellFormed(program)
    ensures Decode(Encode(program) + rest) == Program(program, rest)
    decreases |program|
  {
    var i := program[0];
    var tail := program[1..];
    var b := Packed(i.kind, i.op1, i.op2);
    assert Encode(program) + rest == b + (Encode(tail) + rest);
    HeadOfPacked(i, Encode(tail) + rest);
    if |program| == 1 {
      assert Encode(tail) + rest == rest;
      assert program == [i];
    } else {
      assert forall x | 0 <= x < |tail| :: tail[x] == program[x + 1];
      DecodeEncode(tail, rest);
      assert program == [i] + tail;
    }
  }

  lemma HeadIsPacked(b: seq<Byte>)
    requires DecodeHead(b).Head?
    ensures var h := DecodeHead(b);
            && Canonical(h.i) && b == Packed(h.i.kind, h.i.op1, h.i.op2) + h.rest
  {
    var h := DecodeHead(b);
    var n := Arity(h.i.kind);
    if n >= 1 {
      BytesRoundTrip(b[1..5]);
    }
    if n >= 2 {
      BytesRoundTrip(b[5..9]);
    }
    assert b == b[..1 + 4 * n] + b[1 + 4 * n..];
    assert b[..1 + 4 * n] == Packed(h.i.kind, h.i.op1, h.i.op2);
  }

  /** And whatever decodes is the encoding of a well-formed program: nothing else gets
      through. */
  lemma {:induction false} EncodeDecode(b: seq<Byte>)
    requires Decode(b).Program?
    ensures WellFormed(Decode(b).list) && b == Encode(Decode(b).list) + Decode(b).rest
    decreases |b|
  {
    HeadIsPacked(b);
    hide DecodeHead, Packed;
    var h := DecodeHead(b);
    var list, head := Decode(b).list, Packed(h.i.kind, h.i.op1, h.i.op2);
    if h.i.kind == EXIT {
      assert list == [h.i] && list[1..] == [];
      assert Encode(list) == head;
    } else {
      EncodeDecode(h.rest);
      var tail := Decode(h.rest).list;
      assert list == [h.i] + tail && list[1..] == tail;
      assert head + (Encode(tail) + Decode(b).rest) == (head + Encode(tail)) + Decode(b).rest;
    }
  }

  // ---------------------------------------------------------------- the buffer

  /** `t_buffer`: bytes are added at the end and taken from the front. */
  class Buffer {
    var stream: seq<Byte>

    /** `buffer_create`. */
    constructor ()
      ensures stream == []
    {
      stream := [];
    }

    /** `buffer_create_copy`. */
    constructor Copy(other: Buffer)
      ensures stream == other.stream
    {
      stream := other.stream;
    }

    /** `buffer_pack`. */
    method Pack(v: seq<Byte>)
      modifies this
      ensures stream == old(stream) + v
    {
      stream := stream + v;
    }

    /** `buffer_unpack`, which is told how many bytes are there. */
    method Unpack(n: nat) returns (v: seq<Byte>)
      requires 0 < n <= |stream|
      modifies this
      ensures |v| == n && old(stream) == v + stream
    {
      v := stream[..n];
      stream := stream[n..];
    }

    /** The serializer: code, then operands one at a time. */
    method PackNoArgs(k: Kind)
      modifies this
      ensures stream == old(stream) + [Code(k)]
    {
      Pack([Code(k)]);
    }

    method PackOneArg(k: Kind, op1: Word)
      modifies this
      ensures stream == old(stream) + [Code(k)] + WordBytes(op1)
    {
      PackNoArgs(k);
      Pack(WordBytes(op1));
    }

    method PackTwoArgs(k: Kind, op1: Word, op2: Word)
      modifies this
      ensures stream == old(stream) + [Code(k)] + WordBytes(op1) + WordBytes(op2)
    {
      PackOneArg(k, op1);
      Pack(WordBytes(op2));
    }
  }

  /** The switch of the decoder, lines 45-71; false stands for exit. */
  method UnpackInstr(buffer: Buffer) returns (ok: bool, i: Instr)
    requires DecodeHead(buffer.stream) != ShortHead
    modifies buffer
    ensures ok <==> DecodeHead(old(buffer.stream)).Head?
    ensures ok ==> DecodeHead(old(buffer.stream)) == Head(i, buffer.stream)
  {
    i := Instr(EXIT, DEFAULT, DEFAULT);
    if buffer.stream == [] {
      return false, i;
    }
    ghost var before := buffer.stream;
    var code := buffer.Unpack(1);
    var kind := KindOf(code[0]);
    if kind == None {
      return false, i;
    }
    var op1, op2 := DEFAULT, DEFAULT;
    if Arity(kind.value) >= 1 {
      if buffer.stream == [] {
        return false, i;
      }
      var bytes := buffer.Unpack(4);
      op1 := WordOf(bytes);
      assert before[1..5] == bytes;
    }
    if Arity(kind.value) >= 2 {
      if buffer.stream == [] {
        return false, i;
      }
      var bytes := buffer.Unpack(4);
      op2 := WordOf(bytes);
      assert before[5..9] == bytes;
    }
    assert before[1 + 4 * Arity(kind.value)..] == buffer.stream;
    ok, i := true, Instr(kind.value, op1, op2);
  }

  /** `instruccion_list_create_from_buffer` as the loop it is; false stands for exit. */
  method DecodeBuffer(buffer: Buffer) returns (ok: bool, list: seq<Instr>)
    requires Decode(buffer.stream) != Overrun
    modifies buffer
    ensures ok <==> Decode(old(buffer.stream)).Program?
    ensures ok ==> Decode(old(buffer.stream)) == Program(list, buffer.stream)
  {
    hide DecodeHead, Decode, Prefixed;
    PrefixedNone(Decode(buffer.stream));
    list := [];
    var isExit := false;
    while !isExit
      invariant isExit ==> Decode(old(buffer.stream)) == Program(list, buffer.stream)
      invariant !isExit ==> Decode(buffer.stream) != Overrun
      invariant !isExit ==> Decode(old(buffer.stream)) == Prefixed(list, Decode(buffer.stream))
      decreases !isExit, |buffer.stream|
    {
      DecodeNext(list, buffer.stream);
      ghost var before := buffer.stream;
      var i;
      ok, i := UnpackInstr(buffer);
      if !ok {
        return false, list;
      }
      list := list + [i];
      isExit := i.kind == EXIT;
    }
    ok := true;
  }

  /** One turn of the loop. */
  lemma DecodeNext(list: seq<Instr>, b: seq<Byte>)
    requires Decode(b) != Overrun
    ensures DecodeHead(b) != ShortHead
    ensures DecodeHead(b).BadHead? ==> !Prefixed(list, Decode(b)).Program?
    ensures DecodeHead(b).Head? ==>
              var h := DecodeHead(b);
              && |h.rest| < |b|
              && if h.i.kind == EXIT then Prefixed(list, Decode(b)) == Program(list + [h.i], h.rest)
                 else Decode(h.rest) != Overrun && Prefixed(list, Decode(b)) == Prefixed(list + [h.i], Decode(h.rest))
  {
    var h := DecodeHead(b);
    hide DecodeHead;
    if h.Head? {
      HeadShorter(b);
      if h.i.kind != EXIT && Decode(h.rest).Program? {
        assert list + ([h.i] + Decode(h.rest).list) == list + [h.i] + Decode(h.rest).list;
      }
    }
  }

  lemma PrefixedNone(d: Decoded)
    ensures Prefixed([], d) == d
  {
    if d.Program? {
      assert [] + d.list == d.list;
    }
  }

  lemma HeadShorter(b: seq<Byte>)
    ensures DecodeHead(b).Head? ==> |DecodeHead(b).rest| < |b|
  {
  }

  function Prefixed(list: seq<Instr>, d: Decoded): Decoded {
    match d case Program(l, rest) => Program(list + l, rest) case _ => d
  }

  // ---------------------------------------------------------------- the console's parser

  /** What `fscanf` sees: a number where one is asked for, or a word. */
  datatype Token = Text(s: string) | Number(n: Word)

  /** The parser accepts at an EXIT, gives up at an unknown word, ends the process when a
      number is missing, and does not come back when the text ends without an EXIT. */
  datatype Outcome = Accepted(pos: nat) | Rejected | Died | RanOut

  function KindNamed(s: string): Option<Kind> {
    if s == "NO_OP" then Some(NO_OP) else if s == "I/O" then Some(IO) else if s == "READ" then Some(READ)
    else if s == "COPY" then Some(COPY) else if s == "WRITE" then Some(WRITE) else if s == "EXIT" then Some(EXIT)
    else None
  }

  /** A word that is none of the six names, or a number where a name should be, makes the
      parser give up, with nothing added for it. */
  lemma UnknownRejected(tokens: seq<Token>, pos: nat, op2: Word)
    requires pos < |tokens|
    requires tokens[pos].Text? ==>
               tokens[pos].s !in ["NO_OP", "I/O", "READ", "COPY", "WRITE", "EXIT"]
    ensures Parse(tokens, pos, op2) == (Rejected, [])
  {
    var names := ["NO_OP", "I/O", "READ", "COPY", "WRITE", "EXIT"];
    assert names[0] in names && names[1] in names && names[2] in names;
    assert names[3] in names && names[4] in names && names[5] in names;
  }

  /** Where a number should follow a name other than EXIT, a word ends the process and the end
      of the text leaves the parser waiting. */
  lemma MissingNumber(tokens: seq<Token>, pos: nat, op2: Word)
    requires pos < |tokens| && tokens[pos].Text? && tokens[pos].s in ["NO_OP", "I/O", "READ", "COPY", "WRITE"]
    ensures pos + 1 == |tokens| ==> Parse(tokens, pos, op2) == (RanOut, [])
    ensures pos + 1 < |tokens| && tokens[pos + 1].Text? ==> Parse(tokens, pos, op2) == (Died, [])
  {
  }

  /** A COPY with one number copies from the last second operand there was. */
  lemma OneNumber(a: Word, b: Word, c: Word, op2: Word)
    ensures Parse([Text("WRITE"), Number(a), Number(b), Text("COPY"), Number(c), Text("EXIT")], 0, op2)
            == (Accepted(6), [5] + WordBytes(a) + WordBytes(b) + ([0] + WordBytes(c) + WordBytes(b) + [1]))
  {
    var tokens := [Text("WRITE"), Number(a), Number(b), Text("COPY"), Number(c), Text("EXIT")];
    assert Parse(tokens, 5, b) == (Accepted(6), [1]);
    assert Parse(tokens, 3, b) == (Accepted(6), Packed(COPY, c, b) + [1]);
    BytesByKind(c, b);
    BytesByKind(a, b);
  }

  function Repeated(n: nat): seq<Byte> {
    if n == 0 then [] else Repeated(n - 1) + [Code(NO_OP)]
  }

  /** The bytes one line adds, given its operands. */
  function LineBytes(k: Kind, op1: Word, op2: Word): seq<Byte> {
    if k == NO_OP then Repeated(op1) else Packed(k, op1, op2)
  }

  /** `consola_parser_parse_instructions` from a position on, with what `op2` holds: when a
      COPY or WRITE has only one number the other operand is the last one read. */
  function Parse(tokens: seq<Token>, pos: nat, op2: Word): (Outcome, seq<Byte>)
    requires pos <= |tokens|
    decreases |tokens| - pos
  {
    if pos == |tokens| then (RanOut, [])
    else if tokens[pos].Number? || KindNamed(tokens[pos].s) == None then (Rejected, [])
    else
      var k := KindNamed(tokens[pos].s).value;
      if k == EXIT then (Accepted(pos + 1), [Code(EXIT)])
      else if pos + 1 == |tokens| then (RanOut, [])
      else if tokens[pos + 1].Text? then (Died, [])
      else
        var op1 := tokens[pos + 1].n;
        var second := Arity(k) == 2 && pos + 2 < |tokens| && tokens[pos + 2].Number?;
        var op2' := if second then tokens[pos + 2].n else op2;
        var (outcome, bytes) := Parse(tokens, if second then pos + 3 else pos + 2, op2');
        (outcome, LineBytes(k, op1, op2') + bytes)
  }

  /** A line of a program text other than EXIT. */
  datatype Line = Line(kind: Kind, op1: Word, op2: Word)

  predicate LineOk(l: Line) {
    l.kind != EXIT && (Arity(l.kind) < 2 ==> l.op2 == DEFAULT)
  }

  function Name(k: Kind): (s: string)
    ensures KindNamed(s) == Some(k)
  {
    match k
    case COPY => "COPY"
    case EXIT => "EXIT"
    case IO => "I/O"
    case NO_OP => "NO_OP"
    case READ => "READ"
    case WRITE => "WRITE"
  }

  function TokensOf(l: Line): seq<Token> {
    [Text(Name(l.kind)), Number(l.op1)] + (if Arity(l.kind) == 2 then [Number(l.op2)] else [])
  }

  function TextOf(lines: seq<Line>): (t: seq<Token>)
    ensures |t| > 0
  {
    if lines == [] then [Text("EXIT")] else TokensOf(lines[0]) + TextOf(lines[1..])
  }

  const EXIT_INSTR := Instr(EXIT, DEFAULT, DEFAULT)

  function NoOps(n: nat): (r: seq<Instr>)
    ensures |r| == n && forall i | 0 <= i < n :: r[i] == Instr(NO_OP, DEFAULT, DEFAULT)
  {
    seq(n, i => Instr(NO_OP, DEFAULT, DEFAULT))
  }

  /** The instructions a line stands for: NO_OP n is n of them. */
  function Expand(l: Line): seq<Instr> {
    if l.kind == NO_OP then NoOps(l.op1)
    else [Instr(l.kind, if Arity(l.kind) >= 1 then l.op1 else DEFAULT, if Arity(l.kind) >= 2 then l.op2 else DEFAULT)]
  }

  function ProgramOf(lines: seq<Line>): seq<Instr> {
    if lines == [] then [EXIT_INSTR] else Expand(lines[0]) + ProgramOf(lines[1..])
  }

  lemma {:induction false} RepeatedIsNoOps(n: nat)
    ensures Encode(NoOps(n)) == Repeated(n)
  {
    if n > 0 {
      RepeatedIsNoOps(n - 1);
      assert NoOps(n) == NoOps(n - 1) + [Instr(NO_OP, DEFAULT, DEFAULT)];
      EncodeAppend(NoOps(n - 1), [Instr(NO_OP, DEFAULT, DEFAULT)]);
      EncodeOne(Instr(NO_OP, DEFAULT, DEFAULT));
    }
  }

  lemma EncodeOne(i: Instr)
    ensures Encode([i]) == Packed(i.kind, i.op1, i.op2)
  {
    assert [i][1..] == [];
  }

  lemma LineIsExpand(l: Line)
    requires LineOk(l)
    ensures Encode(Expand(l)) == LineBytes(l.kind, l.op1, l.op2)
  {
    if l.kind == NO_OP {
      RepeatedIsNoOps(l.op1);
    } else {
      EncodeOne(Expand(l)[0]);
    }
  }

  /** One line at the front of what is left. */
  lemma ParseLine(tokens: seq<Token>, pos: nat, op2: Word, l: Line)
    requires LineOk(l) && pos + |TokensOf(l)| < |tokens|
    requires forall i | 0 <= i < |TokensOf(l)| :: tokens[pos + i] == TokensOf(l)[i]
    ensures var op2' := if Arity(l.kind) == 2 then l.op2 else op2;
            var (outcome, bytes) := Parse(tokens, pos + |TokensOf(l)|, op2');
            Parse(tokens, pos, op2) == (outcome, LineBytes(l.kind, l.op1, op2') + bytes)
  {
    NameKind(l.kind);
    hide KindNamed, Name, LineBytes;
    assert tokens[pos] == tokens[pos + 0] == TokensOf(l)[0];
    assert tokens[pos + 1] == TokensOf(l)[1];
    assert Arity(l.kind) == 2 ==> tokens[pos + 2] == TokensOf(l)[2];
  }

  lemma ParseExit(tokens: seq<Token>, pos: nat, op2: Word)
    requires pos < |tokens| && tokens[pos] == Text("EXIT")
    ensures Parse(tokens, pos, op2) == (Accepted(pos + 1), Encode([EXIT_INSTR]))
  {
    NameKind(EXIT);
    assert Name(EXIT) == "EXIT";
    EncodeOne(EXIT_INSTR);
    assert Packed(EXIT, DEFAULT, DEFAULT) == [Code(EXIT)];
    hide KindNamed, Name;
  }

  lemma NameKind(k: Kind)
    ensures KindNamed(Name(k)) == Some(k)
  {
  }

  lemma LineBytesOp2(k: Kind, op1: Word, op2: Word, op2': Word)
    requires Arity(k) < 2
    ensures LineBytes(k, op1, op2) == LineBytes(k, op1, op2')
  {
  }

  /** Parsing a text produces the encoding of the program it stands for, stops after its
      EXIT and looks at nothing beyond. */
  lemma {:induction false} ParseText(before: seq<Token>, lines: seq<Line>, after: seq<Token>, op2: Word)
    requires forall i | 0 <= i < |lines| :: LineOk(lines[i])
    ensures Parse(before + TextOf(lines) + after, |before|, op2)
            == (Accepted(|before| + |TextOf(lines)|), Encode(ProgramOf(lines)))
    decreases |lines|
  {
    hide Parse, LineBytes, Packed, Expand, Encode, KindNamed, Name;
    var tokens := before + TextOf(lines) + after;
    if lines == [] {
      ParseExit(tokens, |before|, op2);
    } else {
      var l := lines[0];
      var t := TokensOf(l);
      assert tokens == (before + t) + TextOf(lines[1..]) + after;
      assert forall i | 0 <= i < |t| :: tokens[|before| + i] == t[i];
      ParseLine(tokens, |before|, op2, l);
      var op2' := if Arity(l.kind) == 2 then l.op2 else op2;
      if Arity(l.kind) < 2 {
        LineBytesOp2(l.kind, l.op1, op2', l.op2);
      }
      ParseText(before + t, lines[1..], after, op2');
      LineIsExpand(l);
      EncodeAppend(Expand(l), ProgramOf(lines[1..]));
    }
  }

  lemma {:induction false} ProgramWellFormed(lines: seq<Line>)
    requires forall i | 0 <= i < |lines| :: LineOk(lines[i])
    ensures WellFormed(ProgramOf(lines))
    decreases |lines|
  {
    if lines != [] {
      ProgramWellFormed(lines[1..]);
      var a, b := Expand(lines[0]), ProgramOf(lines[1..]);
      var p := ProgramOf(lines);
      assert forall i | 0 <= i < |a| :: p[i] == a[i] && a[i].kind != EXIT && Canonical(a[i]);
      assert forall i | |a| <= i < |p| :: p[i] == b[i - |a|];
    }
  }

  /** From text to CPU: what the console parses the CPU decodes as the program the text
      stands for, NO_OP n as n instructions, and nothing after it is touched. */
  lemma TextArrives(lines: seq<Line>, junk: seq<Token>, rest: seq<Byte>)
    requires forall i | 0 <= i < |lines| :: LineOk(lines[i])
    ensures var (outcome, bytes) := Parse(TextOf(lines) + junk, 0, DEFAULT);
            && outcome == Accepted(|TextOf(lines)|)
            && Decode(bytes + rest) == Program(ProgramOf(lines), rest)
  {
    assert [] + TextOf(lines) + junk == TextOf(lines) + junk;
    ParseText([], lines, junk, DEFAULT);
    ProgramWellFormed(lines);
    DecodeEncode(ProgramOf(lines), rest);
  }

  /** The program an accepted text is taken for, stale operands included. */
  function Taken(tokens: seq<Token>, pos: nat, op2: Word): (lines: seq<Line>)
    requires pos <= |tokens| && Parse(tokens, pos, op2).0.Accepted?
    ensures forall i | 0 <= i < |lines| :: LineOk(lines[i])
    decreases |tokens| - pos
  {
    var k := KindNamed(tokens[pos].s).value;
    if k == EXIT then []
    else
      var second := Arity(k) == 2 && pos + 2 < |tokens| && tokens[pos + 2].Number?;
      var op2' := if second then tokens[pos + 2].n else op2;
      [Line(k, tokens[pos + 1].n, if Arity(k) == 2 then op2' else DEFAULT)]
      + Taken(tokens, if second then pos + 3 else pos + 2, op2')
  }

  /** Whatever text is accepted, the bytes are those of a well-formed program, so the CPU
      never fails on them. */
  lemma {:induction false} AcceptedDecodes(tokens: seq<Token>, pos: nat, op2: Word)
    requires pos <= |tokens| && Parse(tokens, pos, op2).0.Accepted?
    ensures Parse(tokens, pos, op2).1 == Encode(ProgramOf(Taken(tokens, pos, op2)))
    ensures WellFormed(ProgramOf(Taken(tokens, pos, op2)))
    decreases |tokens| - pos
  {
    var lines := Taken(tokens, pos, op2);
    ProgramWellFormed(lines);
    if lines == [] {
      EncodeOne(EXIT_INSTR);
    } else {
      var k := KindNamed(tokens[pos].s).value;
      var second := Arity(k) == 2 && pos + 2 < |tokens| && tokens[pos + 2].Number?;
      AcceptedDecodes(tokens, if second then pos + 3 else pos + 2, if second then tokens[pos + 2].n else op2);
      LineIsExpand(lines[0]);
      EncodeAppend(Expand(lines[0]), ProgramOf(lines[1..]));
    }
  }

  /** `consola_parser_parse_instructions` as the loop it is. */
  method ParseInstructions(tokens: seq<Token>, buffer: Buffer) returns (outcome: Outcome)
    modifies buffer
    ensures outcome == Parse(tokens, 0, DEFAULT).0
    ensures buffer.stream == old(buffer.stream) + Parse(tokens, 0, DEFAULT).1
  {
    hide Parse, KindNamed, LineBytes;
    var pos, op1, op2 := 0, DEFAULT, DEFAULT;
    ghost var was := buffer.stream;
    ghost var done: seq<Byte> := [];
    assert done + Parse(tokens, 0, DEFAULT).1 == Parse(tokens, 0, DEFAULT).1;
    while true
      invariant pos <= |tokens| && buffer.stream == was + done
      invariant Parse(tokens, 0, DEFAULT).0 == Parse(tokens, pos, op2).0
      invariant Parse(tokens, 0, DEFAULT).1 == done + Parse(tokens, pos, op2).1
      decreases |tokens| - pos
    {
      ParseHere(tokens, pos, op2);
      if pos == |tokens| {
        return RanOut;
      }
      if tokens[pos].Number? || KindNamed(tokens[pos].s) == None {
        return Rejected;
      }
      var k := KindNamed(tokens[pos].s).value;
      if k == EXIT {
        buffer.PackNoArgs(k);
        return Accepted(pos + 1);
      }
      if pos + 1 == |tokens| {
        return RanOut;
      }
      if tokens[pos + 1].Text? {
        return Died;
      }
      op1 := tokens[pos + 1].n;
      pos := pos + 2;
      if Arity(k) == 2 && pos < |tokens| && tokens[pos].Number? {
        op2 := tokens[pos].n;
        pos := pos + 1;
      }
      ghost var before := buffer.stream;
      if k == NO_OP {
        PackNoOps(buffer, op1);
      } else if Arity(k) == 1 {
        buffer.PackOneArg(k, op1);
      } else {
        buffer.PackTwoArgs(k, op1, op2);
      }
      LineBytesAre(k, op1, op2);
      assert buffer.stream == before + LineBytes(k, op1, op2);
      ghost var line := LineBytes(k, op1, op2);
      assert done + (line + Parse(tokens, pos, op2).1) == (done + line) + Parse(tokens, pos, op2).1;
      done := done + line;
    }
  }

  /** The loop for NO_OP, lines 30-32. */
  method PackNoOps(buffer: Buffer, n: nat)
    modifies buffer
    ensures buffer.stream == old(buffer.stream) + Repeated(n)
  {
    var i := 0;
    while i < n
      invariant i <= n && buffer.stream == old(buffer.stream) + Repeated(i)
    {
      buffer.PackNoArgs(NO_OP);
      i := i + 1;
    }
  }

  lemma LineBytesAre(k: Kind, op1: Word, op2: Word)
    ensures k == NO_OP ==> LineBytes(k, op1, op2) == Repeated(op1)
    ensures k != NO_OP && Arity(k) == 1 ==> LineBytes(k, op1, op2) == [Code(k)] + WordBytes(op1)
    ensures k != NO_OP && Arity(k) == 2 ==> LineBytes(k, op1, op2) == [Code(k)] + WordBytes(op1) + WordBytes(op2)
  {
  }

  /** One turn of the parser. */
  lemma ParseHere(tokens: seq<Token>, pos: nat, op2: Word)
    requires pos <= |tokens|
    ensures pos == |tokens| ==> Parse(tokens, pos, op2) == (RanOut, [])
    ensures pos < |tokens| ==>
              if tokens[pos].Number? || KindNamed(tokens[pos].s) == None
              then Parse(tokens, pos, op2) == (Rejected, [])
              else
                var k := KindNamed(tokens[pos].s).value;
                if k == EXIT then Parse(tokens, pos, op2) == (Accepted(pos + 1), [Code(EXIT)])
                else if pos + 1 == |tokens| then Parse(tokens, pos, op2) == (RanOut, [])
                else if tokens[pos + 1].Text? then Parse(tokens, pos, op2) == (Died, [])
                else
                  var second := Arity(k) == 2 && pos + 2 < |tokens| && tokens[pos + 2].Number?;
                  var op2' := if second then tokens[pos + 2].n else op2;
                  var rest := Parse(tokens, if second then pos + 3 else pos + 2, op2');
                  Parse(tokens, pos, op2) == (rest.0, LineBytes(k, tokens[pos + 1].n, op2') + rest.1)
  {
    hide KindNamed, LineBytes;
  }
}

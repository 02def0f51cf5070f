/** agents/main.py: the demultiplexer of a container's log stream ("Attach to a
    container" of the Docker Engine API, section "Stream format"). */
module DockerLogs {
  import opened Wrappers

  type Byte = x: int | 0 <= x < 256

  const MAX_PAYLOAD: nat := 0x1_0000_0000

  /** `pad` stands for the three header bytes that nobody looks at. */
  datatype Frame = Frame(stream: Byte, pad: (Byte, Byte, Byte), payload: seq<Byte>)

  predicate ValidFrame(f: Frame) {
    f.stream <= 2 && |f.payload| < MAX_PAYLOAD
  }

  // ------------------------------------------------------------------- encoding

  function BigEndian(a: Byte, b: Byte, c: Byte, d: Byte): (n: nat)
    ensures n < MAX_PAYLOAD
  {
    ((a * 256 + b) * 256 + c) * 256 + d
  }

  function SizeBytes(n: nat): seq<Byte>
    requires n < MAX_PAYLOAD
  {
    [n / 0x100_0000, n / 0x1_0000 % 256, n / 256 % 256, n % 256]
  }

  function EncodeFrame(f: Frame): (r: seq<Byte>)
    requires ValidFrame(f)
  {
    [f.stream, f.pad.0, f.pad.1, f.pad.2] + SizeBytes(|f.payload|) + f.payload
  }

  function Encode(fs: seq<Frame>): seq<Byte>
    requires forall f :: f in fs ==> ValidFrame(f)
  {
    if fs == [] then [] else EncodeFrame(fs[0]) + Encode(fs[1..])
  }

  lemma SizeRoundTrip(a: Byte, b: Byte, c: Byte, d: Byte)
    ensures SizeBytes(BigEndian(a, b, c, d)) == [a, b, c, d]
  {
    var high := a * 256 + b;
    var most := high * 256 + c;
    var n := most * 256 + d;
    assert n / 256 == most && n % 256 == d;
    assert most / 256 == high && most % 256 == c;
    assert n / 0x1_0000 == high && n / 0x100_0000 == a;
  }

  lemma SizeBack(n: nat)
    requires n < MAX_PAYLOAD
    ensures var s := SizeBytes(n); BigEndian(s[0], s[1], s[2], s[3]) == n
  {
  }

  // -------------------------------------------------------------------- parsing

  function SizeAt(raw: seq<Byte>): nat
    requires |raw| >= 8
  {
    BigEndian(raw[4], raw[5], raw[6], raw[7])
  }

  predicate HeaderOk(raw: seq<Byte>)
    requires |raw| >= 8
  {
    raw[0] <= 2 && 8 + SizeAt(raw) <= |raw|
  }

  function FirstFrame(raw: seq<Byte>): Frame
    requires |raw| >= 8 && HeaderOk(raw)
  {
    Frame(raw[0], (raw[1], raw[2], raw[3]), raw[8..8 + SizeAt(raw)])
  }

  /** Frame after frame while a header fits; fewer than eight bytes at the end are
      dropped, a bad header gives up on the framing. */
  function Parse(raw: seq<Byte>): Option<seq<Frame>> {
    if |raw| < 8 then Some([])
    else if !HeaderOk(raw) then None
    else
      var rest := Parse(raw[8 + SizeAt(raw)..]);
      if rest.None? then None else Some([FirstFrame(raw)] + rest.value)
  }

  function Join(fs: seq<Frame>, decode: seq<Byte> -> string): string {
    if fs == [] then "" else decode(fs[0].payload) + Join(fs[1..], decode)
  }

  lemma JoinMore(fs: seq<Frame>, f: Frame, decode: seq<Byte> -> string)
    ensures Join(fs + [f], decode) == Join(fs, decode) + decode(f.payload)
  {
    if fs == [] {
      assert Join([], decode) == "" && [f][1..] == [];
    } else {
      assert (fs + [f])[1..] == fs[1..] + [f];
      JoinMore(fs[1..], f, decode);
    }
  }

  /** The decoded payloads one after the other: nothing for no frame, one payload for
      one, and for two lists what each gives by itself. */
  lemma {:induction false} JoinConcatenates(a: seq<Frame>, b: seq<Frame>, f: Frame, decode: seq<Byte> -> string)
    ensures Join([], decode) == "" && Join([f], decode) == decode(f.payload)
    ensures Join(a + b, decode) == Join(a, decode) + Join(b, decode)
  {
    JoinMore([], f, decode);
    assert [] + [f] == [f];
    if a == [] {
      assert a + b == b;
    } else {
      assert (a + b)[1..] == a[1..] + b;
      JoinConcatenates(a[1..], b, f, decode);
    }
  }

  /** The frames in front of `i` are `done`, and what is behind decides the rest. */
  ghost predicate ReadUpTo(raw: seq<Byte>, i: nat, done: seq<Frame>) {
    && i <= |raw| && (done == [] <==> i == 0)
    && match Parse(raw[i..])
       case None => Parse(raw) == None
       case Some(rest) => Parse(raw) == Some(done + rest)
  }

  lemma ReadOne(raw: seq<Byte>, i: nat, done: seq<Frame>)
    requires ReadUpTo(raw, i, done) && i + 8 <= |raw|
    ensures !HeaderOk(raw[i..]) ==> Parse(raw) == None
    ensures HeaderOk(raw[i..]) ==>
      FirstFrame(raw[i..]).payload == raw[i + 8..i + 8 + SizeAt(raw[i..])]
      && ReadUpTo(raw, i + 8 + SizeAt(raw[i..]), done + [FirstFrame(raw[i..])])
  {
    hide BigEndian;
    var rest := raw[i..];
    if HeaderOk(rest) {
      var size := SizeAt(rest);
      assert rest[8 + size..] == raw[i + 8 + size..];
      assert rest[8..8 + size] == raw[i + 8..i + 8 + size];
      if Parse(rest).Some? {
        assert done + Parse(rest).value == done + [FirstFrame(rest)] + Parse(rest[8 + size..]).value;
      }
    }
  }

  lemma ReadAll(raw: seq<Byte>, i: nat, done: seq<Frame>)
    requires ReadUpTo(raw, i, done) && |raw| < i + 8
    ensures Parse(raw) == Some(done)
  {
    assert done + [] == done;
  }

  /** `_demux_docker_logs`; `decode` is the UTF-8 decoder with replacement. */
  method DemuxDockerLogs(raw: seq<Byte>, decode: seq<Byte> -> string) returns (text: string)
    ensures text == Demultiplexed(raw, decode)
  {
    if raw == [] { return ""; }
    var outText := "";
    ghost var done: seq<Frame> := [];
    var i := 0;
    assert raw[0..] == raw;
    assert Parse(raw).Some? ==> [] + Parse(raw).value == Parse(raw).value;
    hide BigEndian, Parse;
    while i + 8 <= |raw|
      invariant 0 <= i <= |raw|
      invariant outText == Join(done, decode)
      invariant ReadUpTo(raw, i, done)
    {
      var size := BigEndian(raw[i + 4], raw[i + 5], raw[i + 6], raw[i + 7]);
      assert size == SizeAt(raw[i..]);
      ReadOne(raw, i, done);
      if raw[i] > 2 || i + 8 + size > |raw| { return decode(raw); }
      JoinMore(done, FirstFrame(raw[i..]), decode);
      outText := outText + decode(raw[i + 8..i + 8 + size]);
      done := done + [FirstFrame(raw[i..])];
      i := i + 8 + size;
    }
    ReadAll(raw, i, done);
    if i > 0 { return outText; }
    text := decode(raw);
  }

  function Demultiplexed(raw: seq<Byte>, decode: seq<Byte> -> string): string {
    if raw == [] then ""
    else
      var frames := Parse(raw);
      if frames.Some? && frames.value != [] then Join(frames.value, decode) else decode(raw)
  }

  // ----------------------------------------------------------------- round trip

  lemma FrameParses(f: Frame, rest: seq<Byte>)
    requires ValidFrame(f)
    ensures var raw := EncodeFrame(f) + rest;
      |raw| >= 8 && HeaderOk(raw) && FirstFrame(raw) == f && raw[8 + SizeAt(raw)..] == rest
  {
    SizeBack(|f.payload|);
    hide BigEndian, SizeBytes;
    var raw := EncodeFrame(f) + rest;
    var s := SizeBytes(|f.payload|);
    SizeBytesLength(|f.payload|);
    assert raw[4] == s[0] && raw[5] == s[1] && raw[6] == s[2] && raw[7] == s[3];
    assert raw[8..8 + |f.payload|] == f.payload;
  }

  lemma SizeBytesLength(n: nat)
    requires n < MAX_PAYLOAD
    ensures |SizeBytes(n)| == 4
  {
  }

  lemma {:induction false} ParseEncoded(fs: seq<Frame>, residue: seq<Byte>)
    requires |residue| < 8 && forall f :: f in fs ==> ValidFrame(f)
    ensures Parse(Encode(fs) + residue) == Some(fs)
  {
    if fs != [] {
      var rest := Encode(fs[1..]) + residue;
      assert Encode(fs) + residue == EncodeFrame(fs[0]) + rest;
      hide BigEndian, SizeBytes, EncodeFrame, HeaderOk, SizeAt, FirstFrame;
      FrameParses(fs[0], rest);
      ParseEncoded(fs[1..], residue);
      assert [fs[0]] + fs[1..] == fs;
    } else {
      assert Encode(fs) + residue == residue;
    }
  }

  lemma EncodeFirst(raw: seq<Byte>)
    requires |raw| >= 8 && HeaderOk(raw)
    ensures ValidFrame(FirstFrame(raw)) && raw == EncodeFrame(FirstFrame(raw)) + raw[8 + SizeAt(raw)..]
  {
    SizeRoundTrip(raw[4], raw[5], raw[6], raw[7]);
    hide BigEndian, SizeBytes;
    assert raw[..8] == [raw[0], raw[1], raw[2], raw[3]] + [raw[4], raw[5], raw[6], raw[7]];
    assert raw == raw[..8] + raw[8..8 + SizeAt(raw)] + raw[8 + SizeAt(raw)..];
  }

  lemma {:induction false} ParsedEncodes(raw: seq<Byte>) returns (residue: seq<Byte>)
    requires Parse(raw).Some?
    ensures |residue| < 8 && (forall f :: f in Parse(raw).value ==> ValidFrame(f))
    ensures raw == Encode(Parse(raw).value) + residue
  {
    if |raw| < 8 {
      residue := raw;
    } else {
      var rest := raw[8 + SizeAt(raw)..];
      residue := ParsedEncodes(rest);
      EncodeFirst(raw);
      var fs := Parse(raw).value;
      assert fs[1..] == Parse(rest).value;
      assert Encode(fs) + residue == EncodeFrame(fs[0]) + (Encode(fs[1..]) + residue);
    }
  }

  ghost predicate Framed(raw: seq<Byte>, fs: seq<Frame>) {
    && (forall f :: f in fs ==> ValidFrame(f))
    && exists residue: seq<Byte> :: |residue| < 8 && raw == Encode(fs) + residue
  }

  /** The parser reads exactly the encodings of frames, with up to seven bytes
      behind them, and from each of them exactly its frames. */
  lemma ParseIffFramed(raw: seq<Byte>, fs: seq<Frame>)
    ensures Parse(raw) == Some(fs) <==> Framed(raw, fs)
  {
    if Parse(raw) == Some(fs) {
      var residue := ParsedEncodes(raw);
    }
    if Framed(raw, fs) {
      var residue: seq<Byte> :| |residue| < 8 && raw == Encode(fs) + residue;
      ParseEncoded(fs, residue);
    }
  }

  /** A stream of at least one frame gives the payloads in order, whatever the
      padding and up to seven bytes behind; every other input its plain decode. */
  lemma Demultiplexes(raw: seq<Byte>, decode: seq<Byte> -> string)
    ensures forall fs :: fs != [] && Framed(raw, fs) ==> Demultiplexed(raw, decode) == Join(fs, decode)
    ensures raw != [] && (forall fs :: fs != [] ==> !Framed(raw, fs)) ==> Demultiplexed(raw, decode) == decode(raw)
    ensures raw == [] ==> Demultiplexed(raw, decode) == ""
  {
    forall fs | fs != [] && Framed(raw, fs) ensures Demultiplexed(raw, decode) == Join(fs, decode) {
      ParseIffFramed(raw, fs);
    }
    if Parse(raw).Some? { ParseIffFramed(raw, Parse(raw).value); }
  }

  /** A stream cut inside the payload of its last frame is not demultiplexed at all;
      cut inside its header, it is demultiplexed without it. */
  lemma CutStream(fs: seq<Frame>, f: Frame, kept: nat, decode: seq<Byte> -> string)
    requires (forall g :: g in fs + [f] ==> ValidFrame(g)) && kept < |EncodeFrame(f)|
    ensures var raw := Encode(fs) + EncodeFrame(f)[..kept];
      && Parse(raw) == (if kept >= 8 then None else Some(fs))
      && Demultiplexed(raw, decode) ==
         if kept < 8 && fs != [] then Join(fs, decode) else if raw == [] then "" else decode(raw)
  {
    assert f in fs + [f];
    assert forall g :: g in fs ==> g in fs + [f];
    if kept >= 8 { CutFails(fs, f, kept); } else { ParseEncoded(fs, EncodeFrame(f)[..kept]); }
    hide Parse, EncodeFrame;
    if fs != [] && kept < 8 { NotEmpty(fs); }
  }

  lemma NotEmpty(fs: seq<Frame>)
    requires fs != [] && forall g :: g in fs ==> ValidFrame(g)
    ensures Encode(fs) != []
  {
    assert |EncodeFrame(fs[0])| >= 8;
  }

  lemma {:induction false} CutFails(fs: seq<Frame>, f: Frame, kept: nat)
    requires ValidFrame(f) && (forall g :: g in fs ==> ValidFrame(g)) && 8 <= kept < |EncodeFrame(f)|
    ensures Parse(Encode(fs) + EncodeFrame(f)[..kept]) == None
  {
    if fs == [] {
      assert Encode(fs) + EncodeFrame(f)[..kept] == EncodeFrame(f)[..kept];
      FrameParses(f, []);
      assert EncodeFrame(f) + [] == EncodeFrame(f);
    } else {
      var rest := Encode(fs[1..]) + EncodeFrame(f)[..kept];
      assert Encode(fs) + EncodeFrame(f)[..kept] == EncodeFrame(fs[0]) + rest;
      FrameParses(fs[0], rest);
      CutFails(fs[1..], f, kept);
    }
  }
}

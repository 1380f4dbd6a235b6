/**
 * The body of a KNXnet/IP CONNECT_RESPONSE frame (KNXnet/IP Core, KNX Standard 03.08.02,
 * section 7.8.2): a communication channel id, a status code and, when the gateway accepted the
 * connection, the data endpoint (an HPAI) followed by the connection response data block (a CRD).
 */
module KnxConnectResponse {
  import opened KnxTypes

  // Connect status codes of the KNXnet/IP Core specification.
  const E_NO_ERROR: byte := 0x00
  const E_SEQUENCE_NUMBER: byte := 0x04
  const E_CONNECTION_TYPE: byte := 0x22
  const E_CONNECTION_OPTION: byte := 0x23
  const E_NO_MORE_CONNECTIONS: byte := 0x24
  const E_DATA_CONNECTION: byte := 0x26
  const E_KNX_CONNECTION: byte := 0x27
  const E_TUNNELING_LAYER: byte := 0x29

  /**
   * A KNXnet/IP sub-structure as it appears on the wire: its first octet is the structure length,
   * which counts the whole structure including that octet. HPAI and CRD both have this shape;
   * their inner fields are not interpreted here.
   */
  type Block = s: seq<byte> | |s| >= 1 && s[0] == |s| witness [1]

  /** Host protocol address information: the data endpoint offered by the gateway. */
  datatype Hpai = Hpai(raw: Block)

  /** Connection response data block: the tunnel granted by the gateway. */
  datatype Crd = Crd(raw: Block)

  datatype ParseError =
    | BufferTooShort            // fewer than two octets after the offset
    | BlockOutOfRange(at: nat)  // an HPAI or CRD whose length octet points past the buffer
    | CrdMissing                // the constructor dereferences crd.length when an HPAI has no CRD

  /**
   * A parsed or constructed response. `length` is the body length the constructor passes to the
   * KNXPacket base class.
   */
  datatype ConnectResponse = ConnectResponse(
    channelID: byte,
    status: byte,
    hpai: Option<Hpai>,
    crd: Option<Crd>,
    length: nat)
  {
    /** What every object built by the constructor satisfies. */
    predicate Valid()
    {
      && (hpai.Some? ==> crd.Some?)
      && length == if hpai.None? then 2 else 2 + |hpai.value.raw| + |crd.value.raw|
    }
  }

  /**
   * The constructor: the declared length is 2 without an HPAI and 2 + hpai.length + crd.length
   * with one, which throws when the CRD is absent.
   */
  function New(channelID: byte, status: byte, hpai: Option<Hpai>, crd: Option<Crd>)
    : (r: Result<ConnectResponse, ParseError>)
    ensures r.Success? <==> (hpai.Some? ==> crd.Some?)
    ensures r.Failure? ==> r.error == CrdMissing
    ensures r.Success? ==> r.value.Valid()
    ensures r.Success? ==> r.value.channelID == channelID && r.value.status == status
    ensures r.Success? ==> r.value.hpai == hpai && r.value.crd == crd
  {
    if hpai.None? then Success(ConnectResponse(channelID, status, hpai, crd, 2))
    else if crd.None? then Failure(CrdMissing)
    else Success(ConnectResponse(channelID, status, hpai, crd, 2 + |hpai.value.raw| + |crd.value.raw|))
  }

  /** Reads one length-prefixed sub-structure starting at `offset`, the way HPAI and CRD parse. */
  function ParseBlock(buffer: seq<byte>, offset: nat): (r: Result<Block, ParseError>)
    ensures r.Success? <==>
      offset < |buffer| && 1 <= buffer[offset] && offset + buffer[offset] <= |buffer|
    ensures r.Success? ==> r.value == buffer[offset .. offset + buffer[offset]]
  {
    if offset >= |buffer| then Failure(BlockOutOfRange(offset))
    else
      var len := buffer[offset];
      if len == 0 || offset + len > |buffer| then Failure(BlockOutOfRange(offset))
      else Success(buffer[offset .. offset + len])
  }

  /**
   * createFromBuffer: the channel id and status octets at `offset`, then, only when octets remain,
   * an HPAI and a CRD right after it. Trailing octets after the CRD are ignored.
   */
  function Parse(buffer: seq<byte>, offset: nat := 0): (r: Result<ConnectResponse, ParseError>)
    ensures r == Failure(BufferTooShort) <==> offset + 2 > |buffer|
    ensures r.Success? ==> r.value.Valid()
    ensures r.Success? ==> r.value.channelID == buffer[offset] && r.value.status == buffer[offset + 1]
    ensures r.Success? ==> (r.value.hpai.None? <==> offset + 2 == |buffer|)
    ensures r.Success? && offset + 2 == |buffer| ==> r.value.crd.None?
    ensures r.Success? ==> (r.value.hpai.None? <==> r.value.length == 2)
    ensures r.Success? ==> offset + r.value.length <= |buffer|
    ensures offset + 2 < |buffer| ==>
      (r.Success? <==> ParseBlock(buffer, offset + 2).Success?
                       && ParseBlock(buffer, offset + 2 + buffer[offset + 2]).Success?)
  {
    if offset + 2 > |buffer| then Failure(BufferTooShort)
    else
      var channelID := buffer[offset];
      var status := buffer[offset + 1];
      var rest := offset + 2;
      if rest < |buffer| then
        match ParseBlock(buffer, rest)
        case Failure(err) => Failure(err)
        case Success(hpai) =>
          match ParseBlock(buffer, rest + |hpai|)
          case Failure(err) => Failure(err)
          case Success(crd) => New(channelID, status, Some(Hpai(hpai)), Some(Crd(crd)))
      else
        New(channelID, status, None, None)
  }

  /**
   * toBuffer: the channel id and status octets, followed by the HPAI and CRD octets when an HPAI
   * is present. A CRD without an HPAI is not written.
   */
  function ToBuffer(r: ConnectResponse): (b: seq<byte>)
    requires r.hpai.Some? ==> r.crd.Some?
    ensures |b| >= 2 && b[0] == r.channelID && b[1] == r.status
    ensures b[2..] == if r.hpai.None? then [] else r.hpai.value.raw + r.crd.value.raw
    ensures r.Valid() ==> |b| == r.length
  {
    if r.hpai.None? then [r.channelID, r.status]
    else [r.channelID, r.status] + r.hpai.value.raw + r.crd.value.raw
  }

  /** Serialising what was parsed gives back exactly the octets the parser consumed. */
  lemma ParseThenToBuffer(buffer: seq<byte>, offset: nat)
    requires Parse(buffer, offset).Success?
    ensures ToBuffer(Parse(buffer, offset).value)
         == buffer[offset .. offset + Parse(buffer, offset).value.length]
  {
    var rest := offset + 2;
    if rest < |buffer| {
      var h, c := ParseBlocks(buffer, offset);
      var r := Parse(buffer, offset).value;
      var end := rest + |h| + |c|;
      assert ToBuffer(r) == buffer[offset .. rest] + buffer[rest .. rest + |h|] + buffer[rest + |h| .. end];
      SliceConcat(buffer, offset, rest, rest + |h|);
      SliceConcat(buffer, offset, rest + |h|, end);
    } else {
      assert buffer[offset .. rest] == [buffer[offset], buffer[offset + 1]];
    }
  }

  /** What Parse read when octets follow the status. */
  lemma ParseBlocks(buffer: seq<byte>, offset: nat) returns (h: Block, c: Block)
    requires Parse(buffer, offset).Success? && offset + 2 < |buffer|
    ensures offset + 2 + |h| + |c| <= |buffer|
    ensures h == buffer[offset + 2 .. offset + 2 + |h|]
    ensures c == buffer[offset + 2 + |h| .. offset + 2 + |h| + |c|]
    ensures Parse(buffer, offset).value
         == ConnectResponse(buffer[offset], buffer[offset + 1], Some(Hpai(h)), Some(Crd(c)), 2 + |h| + |c|)
  {
    h := ParseBlock(buffer, offset + 2).value;
    c := ParseBlock(buffer, offset + 2 + |h|).value;
  }

  lemma SliceConcat<T>(s: seq<T>, i: nat, j: nat, k: nat)
    requires i <= j <= k <= |s|
    ensures s[i .. j] + s[j .. k] == s[i .. k]
  {
  }

  /** A two-octet body (no data endpoint) survives parse then serialise unchanged. */
  lemma TwoOctetRoundTrip(buffer: seq<byte>)
    requires |buffer| == 2
    ensures Parse(buffer).Success?
    ensures ToBuffer(Parse(buffer).value) == buffer
  {
    ParseThenToBuffer(buffer, 0);
  }

  /**
   * Parsing what was serialised recovers the channel id and the status of every constructed
   * response, and the whole response when no CRD stands alone without an HPAI.
   */
  lemma ToBufferThenParse(r: ConnectResponse)
    requires r.Valid()
    ensures Parse(ToBuffer(r)).Success?
    ensures Parse(ToBuffer(r)).value.channelID == r.channelID
    ensures Parse(ToBuffer(r)).value.status == r.status
    ensures (r.hpai.None? ==> r.crd.None?) ==> Parse(ToBuffer(r)) == Success(r)
  {
    var b := ToBuffer(r);
    if r.hpai.Some? {
      var h := r.hpai.value.raw;
      var c := r.crd.value.raw;
      assert b[2 .. 2 + |h|] == h;
      assert b[2 + |h| .. 2 + |h| + |c|] == c;
      assert ParseBlock(b, 2) == Success(h);
      assert ParseBlock(b, 2 + |h|) == Success(c);
    }
  }

  /** statusToString: the seven listed error codes have fixed texts, any other value is unknown. */
  function StatusToString(status: nat): (text: string)
    ensures status == E_SEQUENCE_NUMBER ==> text == "Invalid Sequence Number"
    ensures status == E_CONNECTION_TYPE ==> text == "Invalid Connection Type"
    ensures status == E_CONNECTION_OPTION ==> text == "Invalid Connection Option"
    ensures status == E_NO_MORE_CONNECTIONS ==> text == "No More Connections"
    ensures status == E_DATA_CONNECTION ==> text == "Invalid Data Connection"
    ensures status == E_KNX_CONNECTION ==> text == "Invalid KNX Connection"
    ensures status == E_TUNNELING_LAYER ==> text == "Invalid Tunneling Layer"
    ensures !IsListedStatus(status) ==> text == "Unknown error " + Decimal(status)
  {
    if status == E_SEQUENCE_NUMBER as nat then "Invalid Sequence Number"
    else if status == E_CONNECTION_TYPE as nat then "Invalid Connection Type"
    else if status == E_CONNECTION_OPTION as nat then "Invalid Connection Option"
    else if status == E_NO_MORE_CONNECTIONS as nat then "No More Connections"
    else if status == E_DATA_CONNECTION as nat then "Invalid Data Connection"
    else if status == E_KNX_CONNECTION as nat then "Invalid KNX Connection"
    else if status == E_TUNNELING_LAYER as nat then "Invalid Tunneling Layer"
    else "Unknown error " + Decimal(status)
  }

  predicate IsListedStatus(status: nat)
  {
    status in {E_SEQUENCE_NUMBER as nat, E_CONNECTION_TYPE as nat, E_CONNECTION_OPTION as nat,
               E_NO_MORE_CONNECTIONS as nat, E_DATA_CONNECTION as nat, E_KNX_CONNECTION as nat,
               E_TUNNELING_LAYER as nat}
  }

  /** Different status codes never produce the same text, so the reported reason identifies the code. */
  lemma StatusToStringInjective(a: nat, b: nat)
    requires StatusToString(a) == StatusToString(b)
    ensures a == b
  {
    UnknownTextMarker(a);
    UnknownTextMarker(b);
    if !IsListedStatus(a) && !IsListedStatus(b) {
      var prefix := "Unknown error ";
      assert Decimal(a) == StatusToString(a)[|prefix|..] == StatusToString(b)[|prefix|..] == Decimal(b);
      DecimalRoundTrip(a);
      DecimalRoundTrip(b);
    }
  }

  /** Only the texts of unlisted codes start with 'U'. */
  lemma UnknownTextMarker(status: nat)
    ensures StatusToString(status)[0] == 'U' <==> !IsListedStatus(status)
  {
  }

  /** The decimal digit for d. */
  function DigitChar(d: nat): (c: char)
    requires d < 10
    ensures '0' <= c <= '9' && c as int - '0' as int == d
  {
    ('0' as int + d) as char
  }

  /** The text of a non-negative integer in a JavaScript template literal: decimal, no leading zero. */
  function Decimal(n: nat): (s: string)
    ensures 1 <= |s|
    ensures forall i :: 0 <= i < |s| ==> '0' <= s[i] <= '9'
    ensures n > 0 ==> s[0] != '0'
  {
    if n < 10 then [DigitChar(n)] else Decimal(n / 10) + [DigitChar(n % 10)]
  }

  /** The value of a string of decimal digits. */
  function DecimalValue(s: string): nat
    requires forall i :: 0 <= i < |s| ==> '0' <= s[i] <= '9'
  {
    if s == [] then 0 else DecimalValue(s[..|s| - 1]) * 10 + (s[|s| - 1] as int - '0' as int)
  }

  /** Reading back the decimal text gives the number, so Decimal is injective. */
  lemma {:induction false} DecimalRoundTrip(n: nat)
    ensures DecimalValue(Decimal(n)) == n
  {
    var s := Decimal(n);
    if n >= 10 {
      assert s[..|s| - 1] == Decimal(n / 10);
      DecimalRoundTrip(n / 10);
    }
  }
}

/**
 * The 64-byte HID report: header (report id, command, session id, payload
 * length, both little-endian) and up to 58 payload bytes; and the split of a
 * long payload into reports.
 */
module Codec {
  import opened Wrappers
  import opened Sequences
  import opened Utf8

  const HID_REPORT_LEN: nat := 64
  const HID_HEADER_SIZE: nat := 6
  const HID_MAX_PAYLOAD: nat := 58
  const REPORT_ID_DEVICE_BOUND: byte := 0x20

  type Sid = n: int | 0 <= n < 0x1_0000

  datatype Cmd =
    | RequestSession | SessionResponse | SessionInvalid | SessionHeartbeat | SessionFocus
    | KeyEvent | EncoderEvent | PermissionRes | AbortSession | SendKey
    | Vt100Stream | UiScaleChange | StatusUpdate | TokenUsage | TurnAppend | PermissionReq | AgentMeta
    | FeedbackEvent | ErrorCmd

  function CmdByte(c: Cmd): byte {
    match c
    case RequestSession => 0x01
    case SessionResponse => 0x02
    case SessionInvalid => 0x03
    case SessionHeartbeat => 0x04
    case SessionFocus => 0x05
    case KeyEvent => 0x10
    case EncoderEvent => 0x11
    case PermissionRes => 0x12
    case AbortSession => 0x13
    case SendKey => 0x14
    case Vt100Stream => 0x30
    case UiScaleChange => 0x40
    case StatusUpdate => 0x50
    case TokenUsage => 0x51
    case TurnAppend => 0x52
    case PermissionReq => 0x53
    case AgentMeta => 0x54
    case FeedbackEvent => 0x60
    case ErrorCmd => 0xFF
  }

  function CmdFromByte(b: byte): (r: Option<Cmd>)
    ensures r.Some? ==> CmdByte(r.value) == b
    ensures r.None? ==> forall c :: CmdByte(c) != b
  {
    match b
    case 0x01 => Some(RequestSession)
    case 0x02 => Some(SessionResponse)
    case 0x03 => Some(SessionInvalid)
    case 0x04 => Some(SessionHeartbeat)
    case 0x05 => Some(SessionFocus)
    case 0x10 => Some(KeyEvent)
    case 0x11 => Some(EncoderEvent)
    case 0x12 => Some(PermissionRes)
    case 0x13 => Some(AbortSession)
    case 0x14 => Some(SendKey)
    case 0x30 => Some(Vt100Stream)
    case 0x40 => Some(UiScaleChange)
    case 0x50 => Some(StatusUpdate)
    case 0x51 => Some(TokenUsage)
    case 0x52 => Some(TurnAppend)
    case 0x53 => Some(PermissionReq)
    case 0x54 => Some(AgentMeta)
    case 0x60 => Some(FeedbackEvent)
    case 0xFF => Some(ErrorCmd)
    case _ => None
  }

  /** The commands' numbers on the wire: session control, input, the screen, the overlay, agents, and the rest. */
  lemma CommandsAreNumbered()
    ensures CmdByte(RequestSession) == 0x01 && CmdByte(SessionResponse) == 0x02 && CmdByte(SessionInvalid) == 0x03
    ensures CmdByte(SessionHeartbeat) == 0x04 && CmdByte(SessionFocus) == 0x05
    ensures CmdByte(KeyEvent) == 0x10 && CmdByte(EncoderEvent) == 0x11 && CmdByte(PermissionRes) == 0x12
    ensures CmdByte(AbortSession) == 0x13 && CmdByte(SendKey) == 0x14
    ensures CmdByte(Vt100Stream) == 0x30 && CmdByte(UiScaleChange) == 0x40
    ensures CmdByte(StatusUpdate) == 0x50 && CmdByte(TokenUsage) == 0x51 && CmdByte(TurnAppend) == 0x52
    ensures CmdByte(PermissionReq) == 0x53 && CmdByte(AgentMeta) == 0x54
    ensures CmdByte(FeedbackEvent) == 0x60 && CmdByte(ErrorCmd) == 0xFF
  {
  }

  datatype Frame = Frame(reportId: byte, cmd: Cmd, sid: Sid, payload: seq<byte>)

  datatype FrameError = TooShort | PayloadTooLarge | UnknownCmd(raw: byte) | HeaderLenMismatch

  function Header(f: Frame): (h: seq<byte>)
    requires |f.payload| <= HID_MAX_PAYLOAD
    ensures |h| == HID_HEADER_SIZE
  {
    [f.reportId, CmdByte(f.cmd), f.sid % 256, f.sid / 256, |f.payload| % 256, |f.payload| / 256]
  }

  /** A report is refused only for an oversize payload; otherwise it is header, payload, zeros. */
  method EncodeFrame(f: Frame) returns (r: Result<seq<byte>, FrameError>)
    ensures r.Failure? <==> |f.payload| > 58
    ensures r.Failure? ==> r.error == PayloadTooLarge
    ensures r.Success? ==>
      && |r.value| == 64
      && r.value[0] == f.reportId && r.value[1] == CmdByte(f.cmd)
      && (r.value[2] as int) + 256 * (r.value[3] as int) == f.sid
      && (r.value[4] as int) + 256 * (r.value[5] as int) == |f.payload|
      && r.value[6..6 + |f.payload|] == f.payload
      && (forall i :: 6 + |f.payload| <= i < 64 ==> r.value[i] == 0)
      && r.value == Header(f) + f.payload + Repeat(0, 58 - |f.payload|)
  {
    if |f.payload| > HID_MAX_PAYLOAD {
      return Failure(PayloadTooLarge);
    }
    var buf := new byte[HID_REPORT_LEN](_ => 0);
    buf[0] := f.reportId;
    buf[1] := CmdByte(f.cmd);
    buf[2], buf[3] := f.sid % 256, f.sid / 256;
    var len := |f.payload|;
    buf[4], buf[5] := len % 256, len / 256;
    hide CmdByte, Header;
    HeaderWritten(buf[..], f);
    for i := 0 to len
      invariant buf[..HID_HEADER_SIZE] == Header(f)
      invariant buf[HID_HEADER_SIZE..HID_HEADER_SIZE + i] == f.payload[..i]
      invariant forall j :: HID_HEADER_SIZE + i <= j < HID_REPORT_LEN ==> buf[j] == 0
    {
      buf[HID_HEADER_SIZE + i] := f.payload[i];
    }
    PaddedReport(buf[..], f);
    HeaderRead(buf[..], f);
    r := Success(buf[..]);
  }

  lemma HeaderWritten(report: seq<byte>, f: Frame)
    requires |report| == HID_REPORT_LEN && |f.payload| <= HID_MAX_PAYLOAD
    requires report[0] == f.reportId && report[1] == CmdByte(f.cmd)
    requires report[2] == f.sid % 256 && report[3] == f.sid / 256
    requires report[4] == |f.payload| % 256 && report[5] == |f.payload| / 256
    ensures report[..HID_HEADER_SIZE] == Header(f)
  {
    hide CmdByte;
  }

  /** The header's fields, each low byte first. */
  lemma HeaderRead(report: seq<byte>, f: Frame)
    requires |report| == HID_REPORT_LEN && |f.payload| <= HID_MAX_PAYLOAD && report[..HID_HEADER_SIZE] == Header(f)
    ensures report[0] == f.reportId && report[1] == CmdByte(f.cmd)
    ensures (report[2] as int) + 256 * (report[3] as int) == f.sid
    ensures (report[4] as int) + 256 * (report[5] as int) == |f.payload|
  {
    hide CmdByte;
    assert forall i :: 0 <= i < HID_HEADER_SIZE ==> report[i] == report[..HID_HEADER_SIZE][i];
  }

  lemma PaddedReport(report: seq<byte>, f: Frame)
    requires |report| == HID_REPORT_LEN && |f.payload| <= HID_MAX_PAYLOAD
    requires report[..HID_HEADER_SIZE] == Header(f)
    requires report[HID_HEADER_SIZE..HID_HEADER_SIZE + |f.payload|] == f.payload
    requires forall j :: HID_HEADER_SIZE + |f.payload| <= j < HID_REPORT_LEN ==> report[j] == 0
    ensures report == Header(f) + f.payload + Repeat(0, HID_MAX_PAYLOAD - |f.payload|)
  {
    hide Header;
    var len := |f.payload|;
    assert report[HID_HEADER_SIZE + len..] == Repeat(0, HID_MAX_PAYLOAD - len);
    assert report == report[..HID_HEADER_SIZE] + report[HID_HEADER_SIZE..HID_HEADER_SIZE + len]
                     + report[HID_HEADER_SIZE + len..];
  }

  function FromLittleEndian16(low: byte, high: byte): Sid {
    var l: int := low;
    l + 256 * high
  }

  function DecodeFrame(data: seq<byte>): (r: Result<Frame, FrameError>) {
    if |data| < HID_HEADER_SIZE then Failure(TooShort)
    else
      var cmd := CmdFromByte(data[1]);
      if cmd.None? then Failure(UnknownCmd(data[1]))
      else
        var len := FromLittleEndian16(data[4], data[5]);
        if HID_HEADER_SIZE + len > |data| then Failure(HeaderLenMismatch)
        else
          Success(Frame(data[0], cmd.value, FromLittleEndian16(data[2], data[3]),
                        data[HID_HEADER_SIZE..HID_HEADER_SIZE + len]))
  }

  lemma CmdFromByteOfCmdByte(c: Cmd)
    ensures CmdFromByte(CmdByte(c)) == Some(c)
  {
  }

  /** Any bytes after the declared payload (the zero padding) are ignored. */
  lemma DecodeEncodedFrame(f: Frame, padding: seq<byte>)
    requires |f.payload| <= HID_MAX_PAYLOAD
    ensures DecodeFrame(Header(f) + f.payload + padding) == Success(f)
  {
    var data := Header(f) + f.payload + padding;
    CmdFromByteOfCmdByte(f.cmd);
    assert data[..HID_HEADER_SIZE] == Header(f);
    assert data[1] == CmdByte(f.cmd) && FromLittleEndian16(data[4], data[5]) == |f.payload|;
    assert data[HID_HEADER_SIZE..HID_HEADER_SIZE + |f.payload|] == f.payload;
  }

  /** A report of at most 64 bytes that decodes starts with the frame's own encoding. */
  lemma EncodeDecodedFrame(data: seq<byte>)
    requires |data| <= HID_REPORT_LEN && DecodeFrame(data).Success?
    ensures var f := DecodeFrame(data).value;
            && |f.payload| <= HID_MAX_PAYLOAD
            && Header(f) + f.payload <= data
  {
    hide CmdByte, CmdFromByte;
    var f := DecodeFrame(data).value;
    SameHeader(Header(f), data);
  }

  lemma SameHeader(header: seq<byte>, data: seq<byte>)
    requires |header| == HID_HEADER_SIZE <= |data|
    requires header[0] == data[0] && header[1] == data[1] && header[2] == data[2] && header[3] == data[3]
    requires header[4] == data[4] && header[5] == data[5]
    ensures header == data[..HID_HEADER_SIZE]
  {
  }

  /** Rust's `chunks(n)`: consecutive pieces of `n` bytes, the last possibly shorter. */
  function Chunks(payload: seq<byte>, n: nat): seq<seq<byte>>
    requires n > 0
  {
    if payload == [] then []
    else if |payload| <= n then [payload]
    else [payload[..n]] + Chunks(payload[n..], n)
  }

  function FrameOf(cmd: Cmd, sid: Sid, payload: seq<byte>): Frame {
    Frame(REPORT_ID_DEVICE_BOUND, cmd, sid, payload)
  }

  function SplitHostToBoard(cmd: Cmd, sid: Sid, payload: seq<byte>): (frames: seq<Frame>)
    ensures |frames| >= 1
  {
    if payload == [] then [FrameOf(cmd, sid, [])]
    else
      ChunksAreBounded(payload, HID_MAX_PAYLOAD);
      var parts := Chunks(payload, HID_MAX_PAYLOAD);
      seq(|parts|, i requires 0 <= i < |parts| => FrameOf(cmd, sid, parts[i]))
  }

  lemma {:induction false} ChunksAreFull(payload: seq<byte>, n: nat)
    requires n > 0
    ensures forall i :: 0 <= i < |Chunks(payload, n)| - 1 ==> |Chunks(payload, n)[i]| == n
  {
    if |payload| > n {
      ChunksAreFull(payload[n..], n);
      assert Chunks(payload, n)[1..] == Chunks(payload[n..], n);
    }
  }

  lemma {:induction false} ChunksAreBounded(payload: seq<byte>, n: nat)
    requires n > 0
    ensures forall i :: 0 <= i < |Chunks(payload, n)| ==> 1 <= |Chunks(payload, n)[i]| <= n
    ensures Flatten(Chunks(payload, n)) == payload
    ensures payload != [] ==> |Chunks(payload, n)| >= 1 && (|Chunks(payload, n)| == 1 <==> |payload| <= n)
  {
    if |payload| > n {
      ChunksAreBounded(payload[n..], n);
    } else if payload != [] {
      assert Flatten([payload]) == payload;
    }
  }

  function FramePayloads(frames: seq<Frame>): seq<seq<byte>> {
    seq(|frames|, i requires 0 <= i < |frames| => frames[i].payload)
  }

  /**
   * The board's concatenation of the frames is the payload; every frame carries
   * the message's command and sid and fits a report; and no frame is superfluous.
   */
  lemma SplitReassembles(cmd: Cmd, sid: Sid, payload: seq<byte>)
    ensures var frames := SplitHostToBoard(cmd, sid, payload);
            && Flatten(FramePayloads(frames)) == payload
            && (forall i :: 0 <= i < |frames| ==> frames[i] == Frame(0x20, cmd, sid, frames[i].payload))
            && (forall i :: 0 <= i < |frames| ==> |frames[i].payload| <= 58)
            && (forall i :: 0 <= i < |frames| - 1 ==> |frames[i].payload| == 58)
            && (|frames| == 1 <==> |payload| <= 58)
            && (payload != [] ==> forall i :: 0 <= i < |frames| ==> frames[i].payload != [])
  {
    var frames := SplitHostToBoard(cmd, sid, payload);
    if payload == [] {
      assert FramePayloads(frames) == [[]];
      assert Flatten(FramePayloads(frames)) == [] + Flatten(FramePayloads(frames)[1..]);
    } else {
      ChunksAreBounded(payload, HID_MAX_PAYLOAD);
      ChunksAreFull(payload, HID_MAX_PAYLOAD);
      assert FramePayloads(frames) == Chunks(payload, HID_MAX_PAYLOAD);
    }
  }
}

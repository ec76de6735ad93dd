/** The device-notification decoder of MainActivity.kt: a frame from the
    glasses carries its type in byte 6, read unsigned, and a payload after it. */
module Notification {
  import opened Wrappers
  import opened Bytes

  datatype DeviceNotification =
    | PhotoCaptured
    | BatteryUpdate(level: nat, charging: bool)
    | RecognitionTriggered
    | MicrophoneStarted
    | UnknownType(tag: nat)

  /** The frame is long enough to hold a type byte, and that byte reads `tag`. */
  predicate HasTag(data: Option<seq<int8>>, tag: nat) {
    data.Some? && |data.value| > 6 && Unsigned(data.value[6]) == tag
  }

  /** `handleDeviceNotification`, as the event it reacts to. A frame that is
      absent or too short, a battery frame without both payload bytes, and a
      microphone frame whose byte 7 is not 1 produce nothing. */
  function Decode(data: Option<seq<int8>>): (r: Option<DeviceNotification>)
    ensures data.None? || |data.value| <= 6 ==> r.None?
    ensures r == Some(PhotoCaptured) <==> HasTag(data, 0x01)
    ensures r == Some(RecognitionTriggered) <==> HasTag(data, 0x02)
    ensures r == Some(MicrophoneStarted) <==> HasTag(data, 0x03) && |data.value| > 7 && data.value[7] == 1
    ensures (r.Some? && r.value.BatteryUpdate?) <==> HasTag(data, 0x05) && |data.value| > 8
    ensures r.Some? && r.value.BatteryUpdate? ==>
      && r.value.level == Unsigned(data.value[7]) && r.value.level <= 255
      && (r.value.charging <==> Unsigned(data.value[8]) == 1)
    ensures (r.Some? && r.value.UnknownType?) <==>
      data.Some? && |data.value| > 6 && Unsigned(data.value[6]) !in {0x01, 0x02, 0x03, 0x05}
    ensures r.Some? && r.value.UnknownType? ==> r.value.tag == Unsigned(data.value[6])
  {
    if data.None? || |data.value| <= 6 then None
    else
      var frame := data.value;
      var notifyType := Unsigned(frame[6]);
      if notifyType == 0x01 then Some(PhotoCaptured)
      else if notifyType == 0x05 then
        if |frame| > 8 then Some(BatteryUpdate(Unsigned(frame[7]), Unsigned(frame[8]) == 1)) else None
      else if notifyType == 0x02 then Some(RecognitionTriggered)
      else if notifyType == 0x03 then
        if |frame| > 7 && frame[7] == 1 then Some(MicrophoneStarted) else None
      else Some(UnknownType(notifyType))
  }

  /** The notifications a frame can carry: a level and a tag fit in a byte,
      and an unknown tag is none of the four the app handles. */
  predicate Encodable(n: DeviceNotification) {
    match n
    case BatteryUpdate(level, _) => level < 256
    case UnknownType(tag) => tag < 256 && tag !in {0x01, 0x02, 0x03, 0x05}
    case _ => true
  }

  /** The shortest frame the glasses send for `n`, after a six-byte header. */
  function Encode(header: seq<int8>, n: DeviceNotification): (frame: seq<int8>)
    requires |header| == 6 && Encodable(n)
    ensures |frame| > 6 && frame[..6] == header
  {
    header + match n
      case PhotoCaptured => [0x01]
      case BatteryUpdate(level, charging) => [0x05, Signed(level), if charging then 1 else 0]
      case RecognitionTriggered => [0x02]
      case MicrophoneStarted => [0x03, 1]
      case UnknownType(tag) => [Signed(tag)]
  }

  /** Decoding an encoded frame gives back the notification. */
  lemma DecodeEncode(header: seq<int8>, n: DeviceNotification)
    requires |header| == 6 && Encodable(n)
    ensures Decode(Some(Encode(header, n))) == Some(n)
  {
    var frame := Encode(header, n);
    assert frame[6..] == frame[|header|..];
    match n
    case BatteryUpdate(level, charging) =>
      assert frame[7] == Signed(level);
      assert Unsigned(frame[8]) == 1 <==> charging;
    case _ =>
  }

  /** Conversely, whatever a frame decodes to could have been encoded, and
      the bytes after the payload do not matter. */
  lemma {:induction false} DecodeIgnoresTrailingBytes(data: seq<int8>, extra: seq<int8>)
    requires Decode(Some(data)).Some?
    ensures Encodable(Decode(Some(data)).value)
    ensures Decode(Some(data + extra)) == Decode(Some(data))
  {
    var d2 := data + extra;
    assert d2[6] == data[6];
    if |data| > 8 {
      assert d2[7] == data[7] && d2[8] == data[8];
    } else if |data| > 7 {
      assert d2[7] == data[7];
    }
  }
}

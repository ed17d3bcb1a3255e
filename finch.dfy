/**
  A model of the command layer of the Finch robot driver (index.js).

  The robot is reached through a USB HID device. The driver picks the
  robot out of the enumerated HID devices, and every command it offers
  turns a few integers into an array of bytes handed to the device's
  `write`. The HID transport itself is not modelled: a `HidDevice` only
  records, in order, every array written to it.
 */
module FinchDriver {

  datatype Option<T> = None | Some(value: T)

  /** The exceptions the driver throws. */
  datatype FinchError =
    | FinchNotFound      // 'Unable to find Finch. Is he plugged in?'
    | ConnectionError    // 'Connection Error: ' + the transport's error
    | InvalidLedArgs     // 'Invalid led args'
    | InvalidMoveArgs    // 'Invalid move args'

  datatype Result<T> = Ok(value: T) | Err(error: FinchError)

  /** Whether a command returned normally or threw. */
  datatype Outcome = Pass | Fail(error: FinchError)

  // USB identity of the Finch
  const DeviceVendor: int := 0x2354
  const DeviceProduct: int := 0x1111

  // Opcodes: the character code of one ASCII letter each
  const ByteLed: int := 'O' as int
  const ByteMotor: int := 'M' as int
  const ByteBuzzer: int := 'B' as int
  const ByteTemperature: int := 'T' as int
  const ByteLight: int := 'L' as int
  const ByteAccelerometer: int := 'A' as int
  const ByteObstacle: int := 'I' as int
  const ByteStop: int := 'X' as int
  const ByteReset: int := 'R' as int
  const ByteConnectTest: int := 'z' as int

  /** Length to which `_send` pads a command. */
  const FrameSize: nat := 9

  lemma OpcodeValues()
    ensures ByteLed == 0x4F && ByteMotor == 0x4D && ByteBuzzer == 0x42
    ensures ByteTemperature == 0x54 && ByteLight == 0x4C && ByteAccelerometer == 0x41
    ensures ByteObstacle == 0x49 && ByteStop == 0x58 && ByteReset == 0x52
    ensures ByteConnectTest == 0x7A
  {
  }

  predicate IsByte(x: int) { 0 <= x <= 255 }

  predicate IsByteSeq(s: seq<int>) { forall i :: 0 <= i < |s| ==> IsByte(s[i]) }

  // ---------------------------------------------------------------------
  // Device selection
  // ---------------------------------------------------------------------

  /** One entry of the HID enumeration: the fields findFinch looks at. */
  datatype DeviceInfo = DeviceInfo(vendorId: int, productId: int, path: string)

  predicate IsFinch(d: DeviceInfo) {
    d.vendorId == DeviceVendor && d.productId == DeviceProduct
  }

  /** The index of the first enumerated device carrying the Finch's
      vendor and product ids, or None when there is none. */
  function FirstFinch(devices: seq<DeviceInfo>): (r: Option<nat>)
    ensures r.None? <==> forall j :: 0 <= j < |devices| ==> !IsFinch(devices[j])
    ensures r.Some? ==> r.value < |devices| && IsFinch(devices[r.value])
    ensures r.Some? ==> forall j :: 0 <= j < r.value ==> !IsFinch(devices[j])
  {
    if |devices| == 0 then None
    else if IsFinch(devices[0]) then Some(0)
    else match FirstFinch(devices[1..])
      case None => None
      case Some(k) => Some(k + 1)
  }

  /** Devices enumerated after the first Finch never change the choice:
      when several Finches are plugged in, the first one wins. */
  lemma {:induction false} FirstFinchIgnoresLater(devices: seq<DeviceInfo>, later: seq<DeviceInfo>)
    requires FirstFinch(devices).Some?
    ensures FirstFinch(devices + later) == FirstFinch(devices)
  {
    var k := FirstFinch(devices).value;
    assert (devices + later)[k] == devices[k];
    forall j | 0 <= j < k
      ensures !IsFinch((devices + later)[j])
    {
      assert (devices + later)[j] == devices[j];
    }
  }

  /** A device that does not carry the Finch's ids, placed in front,
      only shifts the chosen index by one. */
  lemma {:induction false} FirstFinchSkipsOther(d: DeviceInfo, devices: seq<DeviceInfo>)
    requires !IsFinch(d)
    ensures FirstFinch([d] + devices) ==
      match FirstFinch(devices)
      case None => None
      case Some(k) => Some(k + 1)
  {
    assert ([d] + devices)[1..] == devices;
  }

  /** The HID device handle, standing for node-hid's `HID.HID` object.
      Only `write` is modelled: it records what it is given. */
  class HidDevice {
    const path: string
    /** Every array handed to `write`, oldest first. */
    var written: seq<seq<int>>

    constructor (path: string)
      ensures this.path == path && written == []
    {
      this.path := path;
      written := [];
    }

    method Write(data: seq<int>)
      modifies this
      ensures written == old(written) + [data]
    {
      written := written + [data];
    }
  }

  /** findFinch: select the first Finch of the enumeration and open it.
      `openable` is the set of device paths the platform can open; opening
      any other path throws, which findFinch reports as a connection error. */
  method FindFinch(devices: seq<DeviceInfo>, openable: set<string>) returns (r: Result<HidDevice>)
    ensures FirstFinch(devices).None? ==> r == Err(FinchNotFound)
    ensures (FirstFinch(devices).Some? && devices[FirstFinch(devices).value].path !in openable)
            ==> r == Err(ConnectionError)
    ensures (FirstFinch(devices).Some? && devices[FirstFinch(devices).value].path in openable)
            ==> r.Ok? && fresh(r.value) && r.value.written == []
                  && r.value.path == devices[FirstFinch(devices).value].path
  {
    var found := FirstFinch(devices);
    if found.None? {
      return Err(FinchNotFound);
    }
    var info := devices[found.value];
    if info.path !in openable {
      return Err(ConnectionError);
    }
    var device := new HidDevice(info.path);
    return Ok(device);
  }

  // ---------------------------------------------------------------------
  // Frames
  // ---------------------------------------------------------------------

  /** What `_send` makes of an array: one shorter than FrameSize is
      zero-filled up to FrameSize; a longer one is left as it is. */
  function Pad(buf: seq<int>): (r: seq<int>)
    ensures |buf| < FrameSize ==> |r| == FrameSize
    ensures |buf| >= FrameSize ==> r == buf
    ensures |buf| <= |r| && r[..|buf|] == buf
    ensures forall i :: |buf| <= i < |r| ==> r[i] == 0
  {
    if |buf| < FrameSize then buf + seq(FrameSize - |buf|, _ => 0) else buf
  }

  /** Padding a padded array changes nothing more. */
  lemma PadIdempotent(buf: seq<int>)
    ensures Pad(Pad(buf)) == Pad(buf)
  {
  }

  /** A JavaScript array of numbers, as handed to `_send`, which grows it
      in place with `push`. */
  class CommandArray {
    var items: seq<int>

    constructor (init: seq<int>)
      ensures items == init
    {
      items := init;
    }

    method Push(x: int)
      modifies this
      ensures items == old(items) + [x]
    {
      items := items + [x];
    }
  }

  /** What `led(r, g, b)` writes, or the error it throws. */
  function LedRequest(r: int, g: int, b: int): (res: Result<seq<int>>)
    ensures res.Ok? <==> IsByte(r) && IsByte(g) && IsByte(b)
    ensures res.Err? ==> res.error == InvalidLedArgs
    ensures res.Ok? ==> res.value == [0x4F, r, g, b, 0, 0, 0, 0, 0]
    ensures res.Ok? ==> IsByteSeq(res.value)
  {
    if (r < 0 || r > 255) || (g < 0 || g > 255) || (b < 0 || b > 255) then
      Err(InvalidLedArgs)
    else
      Ok(Pad([ByteLed, r, g, b]))
  }

  /** What `move(leftDirection, leftSpeed, rightDirection, rightSpeed)`
      writes, or the error it throws: the directions are checked first,
      then the speeds. The array is written as it is, five long. */
  function MoveRequest(leftDirection: int, leftSpeed: int, rightDirection: int, rightSpeed: int)
    : (res: Result<seq<int>>)
    ensures res.Ok? <==> leftDirection in {0, 1} && rightDirection in {0, 1}
                         && IsByte(leftSpeed) && IsByte(rightSpeed)
    ensures res.Err? ==> res.error == InvalidMoveArgs
    ensures res.Ok? ==> |res.value| == 5 && res.value[0] == 0x4D
                        && res.value[1..] == [leftDirection, leftSpeed, rightDirection, rightSpeed]
    ensures res.Ok? ==> IsByteSeq(res.value)
  {
    if (leftDirection < 0 || leftDirection > 1) || rightDirection < 0 || rightDirection > 1 then
      Err(InvalidMoveArgs)
    else if (leftSpeed < 0 || leftSpeed > 255) || rightSpeed < 0 || rightSpeed > 255 then
      Err(InvalidMoveArgs)
    else
      Ok([ByteMotor, leftDirection, leftSpeed, rightDirection, rightSpeed])
  }

  /** The argument checks of test.js: led(-10, -10, -10) and
      led(255, 255, 256) throw; the bounds 0 and 255 are accepted. */
  lemma LedBounds()
    ensures LedRequest(-10, -10, -10) == Err(InvalidLedArgs)
    ensures LedRequest(255, 255, 256) == Err(InvalidLedArgs)
    ensures LedRequest(0, 255, 0).Ok?
  {
  }

  /** A direction of 2 or a speed of 256 is rejected, not clamped. */
  lemma MoveBounds()
    ensures MoveRequest(2, 0, 0, 0) == Err(InvalidMoveArgs)
    ensures MoveRequest(0, 0, 0, 256) == Err(InvalidMoveArgs)
    ensures MoveRequest(1, 255, 0, 0) == Ok([0x4D, 1, 255, 0, 0])
  {
  }

  /** An array the driver may hand to `write`: a known opcode first, then
      bytes only. */
  predicate IsCommand(frame: seq<int>) {
    |frame| >= 1 && IsByteSeq(frame)
    && frame[0] in {ByteLed, ByteMotor, ByteTemperature, ByteLight,
                    ByteAccelerometer, ByteObstacle, ByteStop, ByteReset}
  }

  /** A request without arguments, sent through `_send`, becomes its
      opcode followed by eight zeros. */
  lemma PadOpcode(opcode: int)
    ensures Pad([opcode]) == [opcode, 0, 0, 0, 0, 0, 0, 0, 0]
  {
  }

  /** Every array of a write log is a well-formed command. */
  predicate AllCommands(log: seq<seq<int>>) {
    forall i :: 0 <= i < |log| ==> IsCommand(log[i])
  }

  /** One more write keeps the log well formed exactly when the array
      written is a command. */
  lemma AllCommandsAppend(log: seq<seq<int>>, frame: seq<int>)
    ensures AllCommands(log + [frame]) <==> AllCommands(log) && IsCommand(frame)
  {
    if AllCommands(log + [frame]) {
      assert (log + [frame])[|log|] == frame;
      forall i | 0 <= i < |log| ensures IsCommand(log[i]) {
        assert (log + [frame])[i] == log[i];
      }
    }
  }

  // ---------------------------------------------------------------------
  // The driver object
  // ---------------------------------------------------------------------

  class Finch {
    /** `this.device`: the handle every command writes through. */
    const device: HidDevice

    /** Everything ever written is a well-formed command. */
    ghost predicate Valid()
      reads this, device
    {
      AllCommands(device.written)
    }

    constructor (device: HidDevice)
      requires device.written == []
      ensures this.device == device && Valid()
    {
      this.device := device;
    }

    /** `_send`: pad `buf` in place with zeros up to FrameSize, then write
        it. An array already FrameSize long or longer is written unchanged. */
    method Send(buf: CommandArray)
      modifies buf, device
      ensures buf.items == Pad(old(buf.items))
      ensures device.written == old(device.written) + [Pad(old(buf.items))]
    {
      if |buf.items| < FrameSize {
        var i := |buf.items|;
        while i < FrameSize
          invariant |old(buf.items)| <= i <= FrameSize
          invariant buf.items == old(buf.items) + seq(i - |old(buf.items)|, _ => 0)
          modifies buf
        {
          buf.Push(0);
          i := i + 1;
        }
      }
      device.Write(buf.items);
    }

    /** `led(r, g, b)`: set the LED colour. */
    method Led(r: int, g: int, b: int) returns (res: Outcome)
      modifies device
      ensures Valid() == old(Valid())
      ensures match LedRequest(r, g, b)
        case Ok(frame) => res == Pass && device.written == old(device.written) + [frame]
        case Err(e) => res == Fail(e) && device.written == old(device.written)
    {
      if (r < 0 || r > 255) || (g < 0 || g > 255) || (b < 0 || b > 255) {
        return Fail(InvalidLedArgs);
      }
      var buf := new CommandArray([ByteLed, r, g, b]);
      Send(buf);
      AllCommandsAppend(old(device.written), LedRequest(r, g, b).value);
      res := Pass;
    }

    /** `move(leftDirection, leftSpeed, rightDirection, rightSpeed)`: set
        both motors. Written directly, without `_send`. */
    method Move(leftDirection: int, leftSpeed: int, rightDirection: int, rightSpeed: int)
      returns (res: Outcome)
      modifies device
      ensures Valid() == old(Valid())
      ensures match MoveRequest(leftDirection, leftSpeed, rightDirection, rightSpeed)
        case Ok(frame) => res == Pass && device.written == old(device.written) + [frame]
        case Err(e) => res == Fail(e) && device.written == old(device.written)
    {
      if (leftDirection < 0 || leftDirection > 1) || rightDirection < 0 || rightDirection > 1 {
        return Fail(InvalidMoveArgs);
      }
      if (leftSpeed < 0 || leftSpeed > 255) || rightSpeed < 0 || rightSpeed > 255 {
        return Fail(InvalidMoveArgs);
      }
      device.Write([ByteMotor, leftDirection, leftSpeed, rightDirection, rightSpeed]);
      AllCommandsAppend(old(device.written), [ByteMotor, leftDirection, leftSpeed, rightDirection, rightSpeed]);
      res := Pass;
    }

    /** `setIdleMode`: let the robot cycle its colours. */
    method SetIdleMode()
      modifies device
      ensures Valid() == old(Valid())
      ensures device.written == old(device.written) + [[0x52, 0, 0, 0, 0, 0, 0, 0, 0]]
    {
      var buf := new CommandArray([ByteReset]);
      Send(buf);
      PadOpcode(ByteReset);
      AllCommandsAppend(old(device.written), Pad([ByteReset]));
    }

    /** `turnOffMotorAndLEDs`: stop the motors and switch off the LED. */
    method TurnOffMotorAndLeds()
      modifies device
      ensures Valid() == old(Valid())
      ensures device.written == old(device.written) + [[0x58, 0, 0, 0, 0, 0, 0, 0, 0]]
    {
      var buf := new CommandArray([ByteStop]);
      Send(buf);
      PadOpcode(ByteStop);
      AllCommandsAppend(old(device.written), Pad([ByteStop]));
    }

    /** The request `temperature` writes through `_send`. */
    method Temperature()
      modifies device
      ensures Valid() == old(Valid())
      ensures device.written == old(device.written) + [[0x54, 0, 0, 0, 0, 0, 0, 0, 0]]
    {
      var buf := new CommandArray([ByteTemperature]);
      Send(buf);
      PadOpcode(ByteTemperature);
      AllCommandsAppend(old(device.written), Pad([ByteTemperature]));
    }

    /** The request `light` writes: one byte, not padded. */
    method Light()
      modifies device
      ensures Valid() == old(Valid())
      ensures device.written == old(device.written) + [[0x4C]]
    {
      device.Write([ByteLight]);
      AllCommandsAppend(old(device.written), [ByteLight]);
    }

    /** The request `accelerometer` writes: one byte, not padded. */
    method Accelerometer()
      modifies device
      ensures Valid() == old(Valid())
      ensures device.written == old(device.written) + [[0x41]]
    {
      device.Write([ByteAccelerometer]);
      AllCommandsAppend(old(device.written), [ByteAccelerometer]);
    }

    /** The request `obstacles` writes: one byte, not padded. */
    method Obstacles()
      modifies device
      ensures Valid() == old(Valid())
      ensures device.written == old(device.written) + [[0x49]]
    {
      device.Write([ByteObstacle]);
      AllCommandsAppend(old(device.written), [ByteObstacle]);
    }
  }

  /** `new Finch()`: locate and open the robot, then wrap its handle.
      Either error of findFinch is passed on unchanged. */
  method NewFinch(devices: seq<DeviceInfo>, openable: set<string>) returns (r: Result<Finch>)
    ensures FirstFinch(devices).None? ==> r == Err(FinchNotFound)
    ensures (FirstFinch(devices).Some? && devices[FirstFinch(devices).value].path !in openable)
            ==> r == Err(ConnectionError)
    ensures (FirstFinch(devices).Some? && devices[FirstFinch(devices).value].path in openable)
            ==> r.Ok? && fresh(r.value) && fresh(r.value.device) && r.value.Valid()
                  && r.value.device.written == []
                  && r.value.device.path == devices[FirstFinch(devices).value].path
  {
    var found := FindFinch(devices, openable);
    match found
    case Err(e) =>
      return Err(e);
    case Ok(device) =>
      var finch := new Finch(device);
      return Ok(finch);
  }
}

# Finch robot driver: command framing and argument validation

A Dafny model of the command layer of the Finch robot driver (`index.js`). The driver does three things, and the model covers each:

- It selects the robot from the enumerated USB HID devices. The robot is the first device with vendor id `0x2354` and product id `0x1111`. The driver fails when there is no such device, or when the device cannot be opened.
- It turns each command into an array of integers whose first element is an ASCII opcode (`'O'` for the LED, `'M'` for the motors, `'R'`, `'X'`, `'T'`, `'L'`, `'A'`, `'I'`). The LED and motor commands check their arguments first. An out-of-range argument throws, and nothing is written.
- It pads the array with zeros to 9 elements (`_send`), in place, and hands it to the device's `write`. `move`, `light`, `accelerometer` and `obstacles` bypass `_send`, so they write 5-element and 1-element arrays.

The HID transport is a class `HidDevice` that records every array handed to `write`, in order (`written`). Each command method of the `Finch` class states exactly which arrays it appends to that log. The JavaScript array that `_send` grows in place is a `CommandArray` object with a `Push` method. The `Finch` class has an invariant `Valid()`: every array ever written starts with a known opcode and holds only values in [0, 255]. Every command method is callable in any state, and after it the invariant holds exactly when it held before. Thrown exceptions are an `Outcome` or `Result` carrying a `FinchError`.

The Finch's HID output reports are 9 bytes; the comment at index.js:76 says as much ("should be 9 bytes"). Not every command keeps to it, and the model follows the code:
- `move` writes a 5-element array (index.js:122), and `light`, `accelerometer` and `obstacles` write a 1-element array (index.js:165, 173, 181). None of them goes through `_send`.
- `_send` neither truncates nor rejects an array longer than 9 elements (index.js:77). Such an array is written unchanged.

## Model

| member | source | states |
|---|---|---|
| `FinchDriver.OpcodeValues` | index.js:16-25 | each opcode constant is the ASCII code of its letter: LED 0x4F, motor 0x4D, buzzer 0x42, temperature 0x54, light 0x4C, accelerometer 0x41, obstacle 0x49, stop 0x58, reset 0x52, connection test 0x7A |
| `FinchDriver.FirstFinch` | index.js:33-41 | the device chosen is the first in enumeration order with vendor id 0x2354 and product id 0x1111; there is none exactly when no enumerated device has both ids |
| `FinchDriver.FirstFinchIgnoresLater` | index.js:34-37 | devices enumerated after the first Finch never change the choice, so with several Finches the first one wins |
| `FinchDriver.FirstFinchSkipsOther` | index.js:34-37 | a non-Finch device in front of the list only shifts the chosen index by one |
| `FinchDriver.FindFinch` | index.js:31-47 | no matching device gives the not-found error; a match whose path cannot be opened gives the connection error; otherwise a fresh handle on the first match's path with nothing written yet |
| `FinchDriver.HidDevice.Write` | index.js:84 | a write appends exactly the given array to the device's write log |
| `FinchDriver.Pad` | index.js:76-81 | an array shorter than 9 is kept as a prefix and zero-filled to length exactly 9; an array of 9 or more is returned unchanged (no truncation) |
| `FinchDriver.PadIdempotent` | index.js:77-81 | padding an already padded array changes nothing |
| `FinchDriver.PadOpcode` | index.js:128-138 | a one-element request sent through `_send` becomes the opcode followed by eight zeros |
| `FinchDriver.LedRequest` | index.js:99-104 | `led` succeeds exactly when r, g and b each lie in [0, 255], bounds inclusive. It then writes `[0x4F, r, g, b, 0, 0, 0, 0, 0]`, all bytes. Otherwise it throws the led error |
| `FinchDriver.MoveRequest` | index.js:114-123 | `move` succeeds exactly when both directions are 0 or 1 and both speeds lie in [0, 255]. It then writes the 5-element array `[0x4D, leftDirection, leftSpeed, rightDirection, rightSpeed]` with no padding. Otherwise it throws the move error |
| `FinchDriver.LedBounds` | test.js:26-37 | `led(-10,-10,-10)` and `led(255,255,256)` throw; `led(0,255,0)` is accepted |
| `FinchDriver.MoveBounds` | index.js:115-120 | a direction of 2 or a speed of 256 is rejected, not clamped; `move(1,255,0,0)` writes `[0x4D,1,255,0,0]` |
| `FinchDriver.AllCommandsAppend` | index.js:84 | one more write keeps the log well formed exactly when the array written starts with a known opcode and holds only bytes |
| `FinchDriver.Finch.constructor` | index.js:64-68 | the driver wraps the opened handle; with nothing written, its invariant holds |
| `FinchDriver.NewFinch` | index.js:64-68 | constructing the driver passes on the errors of device selection unchanged; on success it holds a fresh handle on the first Finch's path, with nothing written |
| `FinchDriver.Finch.Send` | index.js:75-85 | the caller's array is padded in place to `Pad` of its old contents, and that padded array is appended to the write log |
| `FinchDriver.Finch.Led` | index.js:99-104 | valid arguments append exactly `LedRequest`'s frame to the log and return normally; invalid ones throw the led error and leave the log unchanged; the invariant holds afterwards exactly when it held before |
| `FinchDriver.Finch.Move` | index.js:114-123 | valid arguments append exactly `MoveRequest`'s 5-element array; invalid ones throw the move error with the log unchanged; the invariant holds afterwards exactly when it held before |
| `FinchDriver.Finch.SetIdleMode` | index.js:128-130 | appends exactly `[0x52,0,0,0,0,0,0,0,0]` to the log |
| `FinchDriver.Finch.TurnOffMotorAndLeds` | index.js:136-138 | appends exactly `[0x58,0,0,0,0,0,0,0,0]` to the log |
| `FinchDriver.Finch.Temperature` | index.js:157-162 | the temperature request appends exactly `[0x54,0,0,0,0,0,0,0,0]` to the log |
| `FinchDriver.Finch.Light` | index.js:164-170 | the light request appends exactly the unpadded `[0x4C]` |
| `FinchDriver.Finch.Accelerometer` | index.js:172-178 | the accelerometer request appends exactly the unpadded `[0x41]` |
| `FinchDriver.Finch.Obstacles` | index.js:180-186 | the obstacle request appends exactly the unpadded `[0x49]` |

## Left out

- The HID transport (`HID.devices()`, `new HID.HID(path)`, `read`, `close`). The enumeration is a parameter (`devices`). Whether a path can be opened is a parameter too (`openable`). `write` only records its argument.
- The value returned by `device.write`, which `led`, `move`, `setIdleMode` and `turnOffMotorAndLEDs` return to their caller (index.js:103, 122, 129, 137). `temperature`, `light`, `accelerometer` and `obstacles` return nothing. The model records what is written, not whether the transport accepted it.
- The `'data'` listener registered by `findFinch`, the `process.on('exit')` hook that closes the device, and the asynchronous callbacks of `temperature`, `light`, `accelerometer` and `obstacles`. These are event plumbing. The sensor methods model only the request they write.
- The temperature conversion `(buf[0]-127)/2.4 + 25`. It is floating-point arithmetic on the reply.
- `console.log` calls and the `instanceof` shim that lets `Finch()` be called without `new`.
- The commented-out buzzer. It is not code, so there is no buzz operation. The constants `BYTE_BUZZER` and `BYTE_CONNECT_TEST` are declared but never sent.
- Non-integer arguments. Arguments are integers. In JavaScript, `NaN` or a missing argument fails every comparison. It therefore passes the driver's own checks (index.js:100, 115-118) and is handed to `write` as is, as in `move(0, 0)` and `led()` in test.js. Whether `write` accepts it is the transport's concern. test.js:34-36 expects `led()` to throw, and only `write` could cause that. The model does not capture this.
- `Finch.Send` with an array that is not a command. JavaScript lets any caller use `_send` directly, with any array. The model allows it too, but afterwards `Valid()` no longer holds. The command methods then keep it false.
- The error messages. Errors are told apart by kind, not by message text.

/**
 * Mod: one gameplay modifier (DT, HD, ...) held by handle. Its settings are set through the
 * native side while it is open; close destroys the handle once and ignores the result.
 */
module Mods {
  import opened Wrappers
  import opened ErrorCodes
  import opened Utf8
  import opened Native
  import NativeHelper

  /** A native call on a mod handle: one Mod_SetSetting* call with the NUL-terminated key it was sent. */
  datatype ModOp = SettingCall(key: seq<byte>, value: SettingValue)

  const ModClassName := "Mod"

  class Mod {
    /** The handle of the NativeMod record Mod_Create wrote. */
    const handle: Handle
    var closed: bool
    /** The native calls made on this handle, in order. */
    ghost var trace: seq<NativeCall<ModOp>>

    ghost predicate Valid()
      reads this
    {
      Lifecycle(closed, trace)
    }

    constructor (handle: Handle)
      ensures Valid() && this.handle == handle && !closed && trace == []
    {
      this.handle := handle;
      closed := false;
      trace := [];
    }

    /**
     * create: the acronym is sent as a NUL-terminated UTF-8 buffer; a non-success code raises
     * "Failed to create mod" and produces no Mod.
     */
    static method Create(acronym: string, code: int, written: Handle)
      returns (r: Result<Mod, Error>, ghost sent: seq<byte>)
      ensures sent == NativeHelper.NativeString(acronym)
      ensures r.Err? <==> code != Value(Success)
      ensures r.Err? ==> r.error == NativeFailure(CreateMod(acronym), FromValue(code))
      ensures r.Ok? ==> fresh(r.value) && r.value.Valid() && r.value.handle == written
      ensures r.Ok? ==> !r.value.closed && r.value.trace == []
    {
      var buffer := NativeHelper.CreateNativeString(acronym);
      sent := buffer[..];
      match NativeHelper.CheckError(code, CreateMod(acronym)) {
        case Fail(e) => r := Err(e);
        case Pass =>
          var m := new Mod(written);
          r := Ok(m);
      }
    }

    /**
     * set_setting_bool / set_setting_int / set_setting_float: on a closed mod, "Mod has been
     * closed" before any native call; otherwise one native call with the encoded key, and its
     * result goes through check_error.
     */
    method SetSetting(key: string, value: SettingValue, code: int) returns (r: Outcome<Error>)
      requires Valid()
      modifies this
      ensures Valid() && closed == old(closed)
      ensures old(closed) ==> r == Fail(Closed(ModClassName)) && trace == old(trace)
      ensures !old(closed) ==> trace == old(trace) + [Invoke(SettingCall(NativeHelper.NativeString(key), value))]
      ensures !old(closed) ==> (r.Fail? <==> code != Value(Success))
      ensures !old(closed) && r.Fail? ==> r.error == NativeFailure(SetModSetting(key, value), FromValue(code))
    {
      if closed {
        return Fail(Closed(ModClassName));
      }
      var nativeKey := NativeHelper.CreateNativeString(key);
      ghost var before := trace;
      trace := trace + [Invoke(SettingCall(nativeKey[..], value))];
      InvokeKeepsLifecycle(closed, before, SettingCall(nativeKey[..], value));
      r := NativeHelper.CheckError(code, SetModSetting(key, value));
    }

    /** close: Mod_Destroy at most once over the mod's life; its result is not inspected, so close never raises. */
    method Close()
      requires Valid()
      modifies this
      ensures Valid() && closed
      ensures trace == if old(closed) then old(trace) else old(trace) + [Destroy]
      ensures DestroyCount(trace) == 1
    {
      if !closed {
        ghost var before := trace;
        trace := trace + [Destroy];
        closed := true;
        CloseKeepsLifecycle(false, before);
      }
    }

    /** __exit__: leaving a `with` block closes the mod. */
    method Exit()
      requires Valid()
      modifies this
      ensures Valid() && closed
      ensures trace == if old(closed) then old(trace) else old(trace) + [Destroy]
    {
      Close();
    }
  }
}

/**
 * NativeHandler: the lifecycle base of Beatmap and the difficulty calculators. It holds one handle
 * and a one-way closed flag; close issues the variant's destroy call at most once; every guarded
 * operation checks the flag before touching the native side.
 */
module NativeHandlers {
  import opened Wrappers
  import opened Native
  import NativeHelper

  /** `Op` is the type of the native operations of the variant that owns the handler. */
  class NativeHandler<Op> {
    const handle: Handle
    /** The wrapper's class name, used in the use-after-close message. */
    const className: string
    var closed: bool
    /** The native calls made on this handle, in order. */
    ghost var trace: seq<NativeCall<Op>>

    ghost predicate Valid()
      reads this
    {
      Lifecycle(closed, trace)
    }

    constructor (handle: Handle, className: string)
      ensures Valid() && !closed && trace == []
      ensures this.handle == handle && this.className == className
    {
      this.handle := handle;
      this.className := className;
      closed := false;
      trace := [];
    }

    /** _check_not_closed: raises "<class> has been closed" exactly when closed. */
    function CheckNotClosed(): (r: Outcome<Error>)
      reads this
      ensures r.Fail? <==> closed
      ensures r.Fail? ==> r.error == Closed(className)
    {
      if closed then Fail(Closed(className)) else Pass
    }

    /** A native call on this handle, issued by the owning variant. */
    method Call(op: Op)
      requires Valid()
      modifies this
      ensures Valid() && closed == old(closed)
      ensures trace == old(trace) + [Invoke(op)]
    {
      ghost var before := trace;
      trace := trace + [Invoke(op)];
      InvokeKeepsLifecycle(closed, before, op);
    }

    /**
     * get_string on this handle: the static helper applied to the handle, with the getter's
     * one or two calls recorded as `queryOp` and `fetchOp`.
     */
    method GetString(g: NativeHelper.StringGetter, queryOp: Op, fetchOp: Op) returns (r: Result<string, Error>)
      requires Valid()
      modifies this
      ensures Valid() && closed == old(closed)
      ensures r == NativeHelper.GetStringResult(g)
      ensures trace == old(trace) + [Invoke(queryOp)] + (if NativeHelper.Fetches(g) then [Invoke(fetchOp)] else [])
    {
      ghost var fetched;
      r, fetched := NativeHelper.GetString(handle, g);
      Call(queryOp);
      if NativeHelper.Fetches(g) {
        Call(fetchOp);
      }
    }

    /** close: a no-op once closed; otherwise the destroy call, then the flag. */
    method Close()
      requires Valid()
      modifies this
      ensures Valid() && closed
      ensures trace == if old(closed) then old(trace) else old(trace) + [Destroy]
      ensures DestroyCount(trace) == 1
    {
      CloseKeepsLifecycle(closed, trace);
      if closed {
        return;
      }
      trace := trace + [Destroy];
      closed := true;
    }

    /** __exit__: leaving a `with` block always closes, whatever the block raised. */
    method Exit()
      requires Valid()
      modifies this
      ensures Valid() && closed
      ensures trace == if old(closed) then old(trace) else old(trace) + [Destroy]
    {
      Close();
    }
  }
}

/**
 * ModsCollection: a native collection handle plus the ordered list of Mod objects added to it,
 * kept so that the mods outlive the native references to them. The list changes only after the
 * native side has accepted the change, and close cascades to the mods before destroying itself.
 */
module ModsCollections {
  import opened Wrappers
  import opened ErrorCodes
  import opened Native
  import NativeHelper
  import opened Mods

  /** A native call on a collection handle. */
  datatype CollectionOp = AddCall(modHandle: Handle) | RemoveCall(modHandle: Handle) | DebugCall

  const CollectionClassName := "ModsCollection"

  /** `list.index(x)`: the position of the first occurrence of x. */
  function FirstIndex<T(==)>(s: seq<T>, x: T): (i: nat)
    requires x in s
    ensures i < |s| && s[i] == x && x !in s[..i]
  {
    if s[0] == x then 0
    else
      assert x in s[1..];
      var j := FirstIndex(s[1..], x);
      assert s[..j + 1] == [s[0]] + s[1..][..j];
      j + 1
  }

  /** `list.remove(x)` when x is present: the first occurrence of x is deleted and nothing else. */
  function RemoveFirst<T(==)>(s: seq<T>, x: T): (r: seq<T>)
    ensures x !in s ==> r == s
    ensures x in s ==> |r| == |s| - 1 && r == s[..FirstIndex(s, x)] + s[FirstIndex(s, x) + 1..]
    ensures multiset(r) == if x in s then multiset(s) - multiset{x} else multiset(s)
  {
    if x in s then
      var i := FirstIndex(s, x);
      assert s == s[..i] + [s[i]] + s[i + 1..];
      s[..i] + s[i + 1..]
    else
      s
  }

  /** After removing one occurrence, x is still present exactly when it occurred more than once. */
  lemma RemoveFirstStillHas<T>(s: seq<T>, x: T)
    ensures x in RemoveFirst(s, x) <==> multiset(s)[x] > 1
  {
    var r := RemoveFirst(s, x);
    assert x in r <==> x in multiset(r);
  }

  /**
   * The loop of close over the listed mods: each one still open is closed, so a mod listed
   * twice gets its destroy once, and one already closed gets none.
   */
  method CloseMods(mods: seq<Mod>)
    requires forall m :: m in mods ==> m.Valid()
    modifies mods
    ensures forall m :: m in mods ==> m.Valid() && m.closed
    ensures forall m :: m in mods ==> m.trace == if old(m.closed) then old(m.trace) else old(m.trace) + [Destroy]
  {
    for i := 0 to |mods|
      invariant forall m :: m in mods ==> m.Valid()
      invariant forall m :: m in mods ==> m.closed == (old(m.closed) || m in mods[..i])
      invariant forall m :: m in mods ==> m.trace == if old(m.closed) || m !in mods[..i] then old(m.trace) else old(m.trace) + [Destroy]
    {
      var m := mods[i];
      assert mods[..i + 1] == mods[..i] + [m];
      if !m.closed {
        m.Close();
      }
    }
    assert mods[..|mods|] == mods;
  }

  class ModsCollection {
    /** The handle of the NativeModsCollection record ModsCollection_Create wrote. */
    const handle: Handle
    /** The mods added and not removed, in the order they were added. */
    var mods: seq<Mod>
    var closed: bool
    /** The native calls made on this handle, in order. */
    ghost var trace: seq<NativeCall<CollectionOp>>

    /**
     * The lifecycle of the collection and of every mod it holds; a closed collection holds only
     * closed mods, since close reaches all of them before the collection is destroyed.
     */
    ghost predicate Valid()
      reads this, mods
    {
      Lifecycle(closed, trace)
      && (forall m :: m in mods ==> m.Valid())
      && (closed ==> forall m :: m in mods ==> m.closed)
    }

    constructor (handle: Handle)
      ensures Valid() && this.handle == handle && mods == [] && !closed && trace == []
    {
      this.handle := handle;
      mods := [];
      closed := false;
      trace := [];
    }

    /** create: a new, empty, open collection; a non-success code raises and produces none. */
    static method Create(code: int, written: Handle) returns (r: Result<ModsCollection, Error>)
      ensures r.Err? <==> code != Value(Success)
      ensures r.Err? ==> r.error == NativeFailure(CreateModsCollection, FromValue(code))
      ensures r.Ok? ==> fresh(r.value) && r.value.Valid() && r.value.handle == written
      ensures r.Ok? ==> r.value.mods == [] && !r.value.closed && r.value.trace == []
    {
      match NativeHelper.CheckError(code, CreateModsCollection) {
        case Fail(e) => r := Err(e);
        case Pass =>
          var c := new ModsCollection(written);
          r := Ok(c);
      }
    }

    /** has: identity membership in the local list; no native call and no closed check. */
    function Has(mod: Mod): (r: bool)
      reads this
      ensures r <==> exists i :: 0 <= i < |mods| && mods[i] == mod
    {
      mod in mods
    }

    /**
     * add: raises on a closed collection before any native call; otherwise one native call, and
     * the mod is appended to the list only when that call succeeds.
     */
    method Add(mod: Mod, code: int) returns (r: Outcome<Error>)
      requires Valid() && mod.Valid()
      modifies this
      ensures Valid() && closed == old(closed)
      ensures old(closed) ==> r == Fail(Closed(CollectionClassName)) && trace == old(trace) && mods == old(mods)
      ensures !old(closed) ==> trace == old(trace) + [Invoke(AddCall(mod.handle))]
      ensures !old(closed) ==> (r.Fail? <==> code != Value(Success))
      ensures !old(closed) && r.Fail? ==> r.error == NativeFailure(AddModToCollection, FromValue(code)) && mods == old(mods)
      ensures r.Pass? ==> mods == old(mods) + [mod]
    {
      if closed {
        return Fail(Closed(CollectionClassName));
      }
      ghost var before := trace;
      trace := trace + [Invoke(AddCall(mod.handle))];
      InvokeKeepsLifecycle(closed, before, AddCall(mod.handle));
      r := NativeHelper.CheckError(code, AddModToCollection);
      if r.Pass? {
        mods := mods + [mod];
      }
    }

    /**
     * remove: raises on a closed collection before any native call; otherwise one native call,
     * and only after it succeeds is the first occurrence of the mod (if any) dropped from the list.
     */
    method Remove(mod: Mod, code: int) returns (r: Outcome<Error>)
      requires Valid()
      modifies this
      ensures Valid() && closed == old(closed)
      ensures old(closed) ==> r == Fail(Closed(CollectionClassName)) && trace == old(trace) && mods == old(mods)
      ensures !old(closed) ==> trace == old(trace) + [Invoke(RemoveCall(mod.handle))]
      ensures !old(closed) ==> (r.Fail? <==> code != Value(Success))
      ensures !old(closed) && r.Fail? ==> r.error == NativeFailure(RemoveModFromCollection, FromValue(code)) && mods == old(mods)
      ensures r.Pass? ==> mods == RemoveFirst(old(mods), mod)
    {
      if closed {
        return Fail(Closed(CollectionClassName));
      }
      ghost var before := trace;
      trace := trace + [Invoke(RemoveCall(mod.handle))];
      InvokeKeepsLifecycle(closed, before, RemoveCall(mod.handle));
      r := NativeHelper.CheckError(code, RemoveModFromCollection);
      if r.Pass? && mod in mods {
        mods := RemoveFirst(mods, mod);
      }
    }

    /**
     * debug: raises on a closed collection; otherwise one native call whose failure is only
     * printed (returned here as the decoded code that would be printed), never raised.
     */
    method Debug(code: int) returns (r: Outcome<Error>, printed: Option<ErrorCode>)
      requires Valid()
      modifies this
      ensures Valid() && closed == old(closed) && mods == old(mods)
      ensures old(closed) ==> r == Fail(Closed(CollectionClassName)) && trace == old(trace) && printed == None
      ensures !old(closed) ==> r == Pass && trace == old(trace) + [Invoke(DebugCall)]
      ensures !old(closed) ==> (printed.Some? <==> code != Value(Success))
      ensures printed.Some? ==> printed.value == FromValue(code)
    {
      if closed {
        return Fail(Closed(CollectionClassName)), None;
      }
      ghost var before := trace;
      trace := trace + [Invoke(DebugCall)];
      InvokeKeepsLifecycle(closed, before, DebugCall);
      r := Pass;
      printed := if code != Value(Success) then Some(FromValue(code)) else None;
    }

    /**
     * close: a no-op once closed. Otherwise every mod in the list that is still open is closed
     * (each one's destroy exactly once, duplicates included), then the collection destroys its
     * own handle. The list itself is kept.
     */
    method Close()
      requires Valid()
      modifies this, mods
      ensures Valid() && closed && mods == old(mods)
      ensures trace == if old(closed) then old(trace) else old(trace) + [Destroy]
      ensures DestroyCount(trace) == 1
      ensures forall m :: m in mods ==> m.closed
      ensures forall m :: m in mods ==> m.trace == if old(m.closed) then old(m.trace) else old(m.trace) + [Destroy]
    {
      if closed {
        return;
      }
      CloseMods(mods);
      ghost var before := trace;
      trace := trace + [Destroy];
      closed := true;
      CloseKeepsLifecycle(false, before);
    }

    /** __exit__: leaving a `with` block closes the collection and its mods. */
    method Exit()
      requires Valid()
      modifies this, mods
      ensures Valid() && closed && mods == old(mods)
      ensures trace == if old(closed) then old(trace) else old(trace) + [Destroy]
      ensures forall m :: m in mods ==> m.closed
    {
      Close();
    }
  }
}

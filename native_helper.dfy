/**
 * The marshaling helpers of class NativeHelper (and their instance twins on NativeHandler):
 * result-code checking, NUL-terminated outbound strings, and the two-phase
 * buffer-size-query protocol for inbound strings.
 */
module NativeHelper {
  import opened Wrappers
  import opened ErrorCodes
  import opened Utf8
  import opened Native

  /** check_error: raises exactly when the code is not SUCCESS, naming the operation and the decoded code. */
  function CheckError(result: int, operation: Operation): (r: Outcome<Error>)
    ensures r.Fail? <==> result != 0
    ensures r.Fail? ==> r.error == NativeFailure(operation, FromValue(result))
  {
    var code := FromValue(result);
    if IsSuccess(code) then Pass else Fail(NativeFailure(operation, code))
  }

  /** The buffer create_native_string hands to the native side: the UTF-8 bytes and one trailing 0. */
  function NativeString(text: string): (b: seq<byte>)
    ensures |b| == |Encode(text)| + 1 && b[|b| - 1] == 0
  {
    Encode(text) + [0]
  }

  /** What a native function reading a NUL-terminated string sees: the bytes before the first 0. */
  function CString(b: seq<byte>): (r: seq<byte>)
    ensures r <= b && 0 !in r
    ensures |r| < |b| ==> b[|r|] == 0
  {
    if b == [] || b[0] == 0 then [] else [b[0]] + CString(b[1..])
  }

  lemma {:induction false} CStringOfTerminated(bytes: seq<byte>)
    requires 0 !in bytes
    ensures CString(bytes + [0]) == bytes
  {
    if bytes != [] {
      assert bytes[0] in bytes;
      assert (bytes + [0])[1..] == bytes[1..] + [0];
      CStringOfTerminated(bytes[1..]);
    }
  }

  /**
   * The native side reads back exactly the text, and the terminating 0 is the buffer's only 0,
   * whenever the text holds no NUL character.
   */
  lemma NativeStringReadBack(text: string)
    requires '\0' !in text
    ensures var b := NativeString(text); 0 !in b[..|b| - 1]
    ensures Decode(CString(NativeString(text))) == Some(text)
  {
    EncodeHasNoZero(text);
    assert NativeString(text)[..|NativeString(text)| - 1] == Encode(text);
    CStringOfTerminated(Encode(text));
    DecodeEncode(text);
  }

  /** create_native_string: allocates len+1 bytes and copies the encoded text in, byte by byte. */
  method CreateNativeString(text: string) returns (buffer: array<byte>)
    ensures fresh(buffer)
    ensures buffer[..] == NativeString(text)
  {
    var encoded := Encode(text);
    buffer := new byte[|encoded| + 1](_ => 0);
    for i := 0 to |encoded|
      invariant forall j :: 0 <= j < i ==> buffer[j] == encoded[j]
    {
      buffer[i] := encoded[i];
    }
    buffer[|encoded|] := 0;
    assert buffer[..] == encoded + [0];
  }

  /**
   * The replies of a native string getter to the two calls get_string makes on one handle:
   * to the call with no buffer, a code and the size written to the size slot; to the call with
   * a buffer, a code, the bytes it writes into the buffer and the size slot's new value.
   */
  datatype StringGetter = StringGetter(
    queryCode: int, reportedSize: int32,
    fillCode: int, written: seq<byte>, finalSize: int32)

  /** Whether get_string makes the second call: only after BUFFER_SIZE_QUERY with a positive size. */
  predicate Fetches(g: StringGetter) {
    g.queryCode == Value(BufferSizeQuery) && g.reportedSize > 0
  }

  /** The zero-initialised buffer of n bytes after the getter wrote `written` into it. */
  function Filled(written: seq<byte>, n: nat): (b: seq<byte>)
    ensures |b| == n
  {
    seq(n, i requires 0 <= i < n => if i < |written| then written[i] else 0)
  }

  /** Python's `s[:n]`: a negative n counts from the end, and the slice never runs past either end. */
  function PrefixSlice<T>(s: seq<T>, n: int): (r: seq<T>)
    ensures r <= s
    ensures |r| == if n >= 0 then (if n < |s| then n else |s|) else (if |s| + n > 0 then |s| + n else 0)
  {
    if n >= |s| then s
    else if n >= 0 then s[..n]
    else if |s| + n > 0 then s[..|s| + n]
    else []
  }

  /** Python's `s.rstrip("\x00")`. */
  function RStripNul(s: string): (r: string)
    ensures r <= s
    ensures r == [] || r[|r| - 1] != '\0'
    ensures forall i :: |r| <= i < |s| ==> s[i] == '\0'
  {
    if s != [] && s[|s| - 1] == '\0' then RStripNul(s[..|s| - 1]) else s
  }

  /** What get_string returns or raises, given the getter's replies. */
  function GetStringResult(g: StringGetter): (r: Result<string, Error>)
    ensures g.queryCode != Value(BufferSizeQuery) ==> r == Err(BufferSizeQueryFailed(FromValue(g.queryCode)))
    ensures g.queryCode == Value(BufferSizeQuery) && g.reportedSize <= 0 ==> r == Ok("")
    ensures Fetches(g) && g.fillCode != Value(Success) ==> r == Err(StringFetchFailed(FromValue(g.fillCode)))
    ensures r.Ok? ==> r.value == [] || r.value[|r.value| - 1] != '\0'
    ensures r.Ok? && r.value != [] ==> Fetches(g) && g.fillCode == 0
  {
    if g.queryCode != Value(BufferSizeQuery) then Err(BufferSizeQueryFailed(FromValue(g.queryCode)))
    else if g.reportedSize <= 0 then Ok("")
    else if g.fillCode != Value(Success) then Err(StringFetchFailed(FromValue(g.fillCode)))
    else
      match Decode(PrefixSlice(Filled(g.written, g.reportedSize as nat), g.finalSize))
      case None => Err(InvalidUtf8)
      case Some(s) => Ok(RStripNul(s))
  }

  /**
   * One call of the native getter on `handle`: without a buffer it answers the size query;
   * with one it writes its bytes into the buffer (never past its end).
   */
  method CallGetter(handle: Handle, g: StringGetter, buffer: array?<byte>, size: int32)
    returns (code: int, size': int32)
    modifies buffer
    ensures buffer == null ==> code == g.queryCode && size' == g.reportedSize
    ensures buffer != null ==> code == g.fillCode && size' == g.finalSize
    ensures buffer != null ==> buffer[..] == PrefixSlice(g.written, buffer.Length) + old(buffer[..])[|PrefixSlice(g.written, buffer.Length)|..]
  {
    if buffer == null {
      return g.queryCode, g.reportedSize;
    }
    var n := if |g.written| < buffer.Length then |g.written| else buffer.Length;
    for i := 0 to n
      invariant forall j :: 0 <= j < i ==> buffer[j] == g.written[j]
      invariant forall j :: i <= j < buffer.Length ==> buffer[j] == old(buffer[j])
    {
      buffer[i] := g.written[i];
    }
    code, size' := g.fillCode, g.finalSize;
  }

  /** get_string: the size query, the empty-string shortcut, the fetch into a fresh buffer, decoding and NUL stripping. */
  method GetString(handle: Handle, g: StringGetter) returns (r: Result<string, Error>, ghost fetched: bool)
    ensures r == GetStringResult(g)
    ensures fetched <==> Fetches(g)
  {
    var size: int32 := 0;
    var result;
    result, size := CallGetter(handle, g, null, size);
    if result != Value(BufferSizeQuery) {
      return Err(BufferSizeQueryFailed(FromValue(result))), false;
    }
    if size <= 0 {
      return Ok(""), false;
    }
    var buffer := new byte[size](_ => 0);
    result, size := CallGetter(handle, g, buffer, size);
    fetched := true;
    if result != Value(Success) {
      return Err(StringFetchFailed(FromValue(result))), true;
    }
    assert buffer[..] == Filled(g.written, g.reportedSize as nat);
    var decoded := Decode(PrefixSlice(buffer[..], size));
    match decoded {
      case None => r := Err(InvalidUtf8);
      case Some(s) => r := Ok(RStripNul(s));
    }
  }

  lemma {:induction false} RStripNuls(t: string, pad: nat)
    requires t == [] || t[|t| - 1] != '\0'
    ensures RStripNul(t + seq(pad, _ => '\0')) == t
  {
    if pad > 0 {
      var s := t + seq(pad, _ => '\0');
      assert s[..|s| - 1] == t + seq(pad - 1, _ => '\0');
      RStripNuls(t, pad - 1);
    } else {
      assert t + seq(pad, _ => '\0') == t;
    }
  }

  /**
   * Round trip of the protocol: a getter that reports |utf8(t)| + pad bytes and then writes
   * utf8(t) into the zeroed buffer yields t, for any t that does not itself end in NUL.
   */
  lemma GetStringRoundTrip(t: string, pad: nat, g: StringGetter)
    requires t == [] || t[|t| - 1] != '\0'
    requires g.queryCode == Value(BufferSizeQuery) && g.reportedSize == |Encode(t)| + pad
    requires g.fillCode == Value(Success) && g.written == Encode(t) && g.finalSize == g.reportedSize
    ensures GetStringResult(g) == Ok(t)
  {
    var n := |Encode(t)| + pad;
    if n > 0 {
      var nuls := seq(pad, _ => '\0');
      EncodeNuls(pad);
      EncodeAppend(t, nuls);
      assert Filled(g.written, n) == Encode(t + nuls);
      DecodeEncode(t + nuls);
      RStripNuls(t, pad);
    }
  }
}

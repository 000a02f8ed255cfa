/** The native surface the wrapper talks to, reduced to what its control flow
    observes: 32-bit status codes, nullable interface pointers, the answer a
    creating call gives (a status and, on success, a new object), the names of
    the calls issued and the handles released. */
module Native {

  /** A Windows HRESULT: a signed 32-bit status code. */
  type HResult = x: int | -0x8000_0000 <= x < 0x8000_0000

  /** An unsigned 32-bit integer (UINT / UINT32 / DWORD). */
  type U32 = x: int | 0 <= x < 0x1_0000_0000

  /** Reads a 32-bit pattern written in hexadecimal as the signed HRESULT it is. */
  function FromBits(u: U32): (hr: HResult)
    ensures hr < 0 <==> u >= 0x8000_0000
    ensures (hr + 0x1_0000_0000) % 0x1_0000_0000 == u
  {
    if u < 0x8000_0000 then u else u - 0x1_0000_0000
  }

  const S_OK: HResult := 0
  const E_FAIL: HResult := FromBits(0x8000_4005)
  const D2DERR_RECREATE_TARGET: HResult := FromBits(0x8899_000C)

  /** SUCCEEDED(hr): the sign bit is clear. FAILED(hr) is its negation. */
  predicate Succeeded(hr: HResult) {
    hr >= 0
  }

  datatype Option<T> = None | Some(value: T)

  /** A nullable native pointer or handle; `Ref(obj)` names one native object. */
  datatype Ptr = Null | Ref(obj: nat)

  /** What a creating native call answers: a success status with the object it
      wrote to its out-pointer, or a failure status (and a null out-pointer). */
  datatype Answer = Made(status: HResult, obj: nat) | Refused(status: HResult) {
    predicate WellFormed() {
      if Made? then Succeeded(status) else !Succeeded(status)
    }

    /** The value the call leaves in its out-pointer. */
    function Written(): (p: Ptr)
      ensures p.Ref? <==> Made?
    {
      if Made? then Ref(obj) else Null
    }
  }

  /** The answers a native creating call can give. */
  type Creation = a: Answer | a.WellFormed() witness Refused(-1)

  /** The interface a released pointer has; each `->Release()` in the source is
      made on a pointer of one of these interfaces. */
  datatype Kind =
    | GraphicsFactory | WriteFactory | ImagingFactory | RenderTarget
    | Decoder | FrameDecode | FormatConverter
    | FontSetBuilder | FontSet | FontFile | FontCollection | FontFamily | LocalizedStrings

  /** One native object of a known interface. */
  datatype Handle = Handle(kind: Kind, obj: nat)

  /** The handles a pointer holds: one when it is non-null, none otherwise. */
  function Holding(p: Ptr, k: Kind): (hs: seq<Handle>)
    ensures |hs| <= 1
    ensures hs != [] <==> p.Ref?
    ensures forall h :: h in hs ==> h.kind == k && p == Ref(h.obj)
  {
    if p.Ref? then [Handle(k, p.obj)] else []
  }

  /** The native calls (other than Release) whose issue the model records. */
  datatype Api =
    | CoInitialize | D2D1CreateFactory | DWriteCreateFactory | CoCreateInstance
    | GetClientRect | CreateHwndRenderTarget
    | BeginPaint | EndPaint | TargetBeginDraw | TargetEndDraw | InvokeCallback
    | CreateSolidColorBrush | FillRectangle | DrawBitmap | DrawText | ReleaseBrush
    | CreateDecoderFromFilename | GetFrame | CreateFormatConverter | InitializeConverter
    | CreateBitmapFromWicBitmap
    | CreateFontSetBuilder | CreateFontFileReference | AddFontFile | CreateFontSet
    | CreateFontCollectionFromFontSet | GetFontFamily | GetFamilyNames
    | GetStringLength | GetString

  /** G2DCallback: an optional function from one untyped pointer to a bool.
      The wrapper always calls it with a null pointer. */
  datatype Callback = NoCallback | Callback(fn: Ptr -> bool)

  /** A present callback that answers false when called with a null pointer. */
  predicate Declines(cb: Callback) {
    cb.Callback? && !cb.fn(Null)
  }

  /** k is the index of the first failing status of s, or |s| when none fails. */
  predicate FailsFirstAt(s: seq<HResult>, k: nat) {
    && k <= |s|
    && (forall i :: 0 <= i < k ==> Succeeded(s[i]))
    && (k < |s| ==> !Succeeded(s[k]))
  }

  /** The index of the first failing status of a chain of `if (SUCCEEDED(hr))`
      stages, or the chain's length when every stage succeeds. */
  function FirstFailure(s: seq<HResult>): (k: nat)
    ensures k <= |s|
    ensures forall i :: 0 <= i < k ==> Succeeded(s[i])
    ensures k < |s| ==> !Succeeded(s[k])
  {
    if s == [] then 0
    else if !Succeeded(s[0]) then 0
    else 1 + FirstFailure(s[1..])
  }

  /** The index that FirstFailure's contract describes is the only one. */
  lemma FirstFailureIs(s: seq<HResult>, k: nat)
    requires FailsFirstAt(s, k)
    ensures FirstFailure(s) == k
  {
  }

  /** The number of released handles of one interface. */
  function KindCount(hs: seq<Handle>, k: Kind): (n: nat)
    ensures n <= |hs|
    ensures n == 0 <==> forall h :: h in hs ==> h.kind != k
  {
    if hs == [] then 0
    else (if hs[0].kind == k then 1 else 0) + KindCount(hs[1..], k)
  }

  lemma {:induction false} KindCountAppend(a: seq<Handle>, b: seq<Handle>, k: Kind)
    ensures KindCount(a + b, k) == KindCount(a, k) + KindCount(b, k)
  {
    if a == [] {
      assert a + b == b;
    } else {
      assert (a + b)[1..] == a[1..] + b;
      KindCountAppend(a[1..], b, k);
    }
  }
}

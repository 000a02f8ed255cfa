/** G2DObject: a window-bound drawing surface with its frame-bracket
    operations. The drawing primitives themselves are native calls; what is
    modelled is which calls are issued, what is released and what is returned. */
module Render {
  import opened Native
  import opened Engine

  /** The cached DPI scale, kept opaque: either 0.0f or the float quotient
      USER_DEFAULT_SCREEN_DPI / dpi for some reported dpi. */
  datatype Scale = Zero | FromDpi(dpi: nat)

  /** The drawing calls that fill one rectangle: a bitmap when one is given,
      otherwise a brush of the solid colour that is created, used and released. */
  function FillCalls(bitmap: Ptr): (apis: seq<Api>)
    ensures bitmap != Null ==> apis == [DrawBitmap]
    ensures bitmap == Null ==> apis == [CreateSolidColorBrush, FillRectangle, ReleaseBrush]
    ensures bitmap == Null ==> multiset(apis)[CreateSolidColorBrush] == multiset(apis)[ReleaseBrush] == 1
  {
    if bitmap != Null then [DrawBitmap] else [CreateSolidColorBrush, FillRectangle, ReleaseBrush]
  }

  /** Objects of this class are not copied or assigned: a Dafny object is
      only ever shared by reference, which is what deleting the C++ copy
      constructor and copy assignment leaves. */
  class G2DObject {
    var hWnd: Ptr
    var pFactory: Ptr
    var pTarget: Ptr
    var pWriteFactory: Ptr
    var dpiScale: Scale

    /** A render target only ever exists alongside the factory that made it. */
    ghost predicate Valid()
      reads this
    {
      pTarget != Null ==> pFactory != Null
    }

    /** G2DObject(): every pointer null, the scale taken from the system DPI. */
    constructor (systemDpi: nat)
      ensures Valid()
      ensures hWnd == Null && pFactory == Null && pTarget == Null && pWriteFactory == Null
      ensures dpiScale == FromDpi(systemDpi)
    {
      hWnd, pFactory, pTarget, pWriteFactory := Null, Null, Null, Null;
      dpiScale := FromDpi(systemDpi);
    }

    /** ~G2DObject(): releases the render target it owns, and nothing else;
        in particular it does not give back its share of the engine. */
    method Destroy() returns (released: seq<Handle>)
      ensures multiset(released) == multiset(Holding(pTarget, RenderTarget))
      ensures forall h :: h in released ==> h.kind == RenderTarget
    {
      released := [];
      if pTarget != Null {
        released := [Handle(RenderTarget, pTarget.obj)];
      }
    }

    /** Initialize(hWnd): join the engine, bind the window, take the shared
        factories and the window's DPI, then rebuild the render target, whose
        success is not reported. If the engine could not be built (the source
        throws), nothing of the object changes. */
    method Initialize(g: Globals, window: Ptr, graphics: Creation, write: Creation,
                      windowDpi: nat, target: Creation)
      returns (raised: bool, apis: seq<Api>, released: seq<Handle>)
      requires g.Valid() && Valid()
      modifies this, g`counter, g`graphicsFactory, g`writeFactory
      ensures g.Valid() && Valid()
      ensures var s := InitStep(old(g.State()), graphics, write);
        raised == s.raised && g.State() == s.after
      ensures apis == InitStep(old(g.State()), graphics, write).apis +
                     (if raised then [] else [GetClientRect, CreateHwndRenderTarget])
      ensures raised ==>
        && hWnd == old(hWnd) && pFactory == old(pFactory) && pTarget == old(pTarget)
        && pWriteFactory == old(pWriteFactory) && dpiScale == old(dpiScale)
        && released == []
      ensures !raised ==>
        && hWnd == window
        && pFactory == g.graphicsFactory && pFactory != Null
        && pWriteFactory == g.writeFactory && pWriteFactory != Null
        && dpiScale == FromDpi(windowDpi)
        && pTarget == target.Written()
        && released == Holding(old(pTarget), RenderTarget)
    {
      var initApis;
      raised, initApis := g.Init(graphics, write);
      apis, released := initApis, [];
      if raised {
        return;
      }
      hWnd := window;
      pFactory := g.graphicsFactory;
      dpiScale := FromDpi(windowDpi);
      pWriteFactory := g.writeFactory;
      var _, refreshApis, refreshReleased := RefreshResource(target);
      apis, released := apis + refreshApis, refreshReleased;
    }

    /** Uninitialize(callback = nullptr): call the callback if given (its
        answer ignored), unbind the window, release and null the render
        target, null the drawing factory, zero the DPI scale and leave the
        engine once. The write factory pointer is kept. */
    method Uninitialize(g: Globals, cb: Callback := NoCallback)
      returns (apis: seq<Api>, released: seq<Handle>)
      requires g.Valid()
      modifies this, g`counter, g`graphicsFactory, g`writeFactory
      ensures g.Valid() && Valid()
      ensures hWnd == Null && pTarget == Null && pFactory == Null && dpiScale == Zero
      ensures pWriteFactory == old(pWriteFactory)
      ensures var s := UninitStep(old(g.State()));
        g.State() == s.after && released == Holding(old(pTarget), RenderTarget) + s.released
      ensures apis == if cb.Callback? then [InvokeCallback] else []
    {
      apis, released := [], [];
      if cb.Callback? {
        var _ := cb.fn(Null);
        apis := [InvokeCallback];
      }
      hWnd := Null;
      if pTarget != Null {
        released := [Handle(RenderTarget, pTarget.obj)];
        pTarget := Null;
      }
      pFactory := Null;
      dpiScale := Zero;
      var engineReleased := g.Uninit();
      released := released + engineReleased;
    }

    /** RefreshResource(): release the current target (without nulling the
        pointer, which the creating call overwrites), then create a new one
        sized to the client area; true iff the creation did not fail. */
    method RefreshResource(target: Creation) returns (ok: bool, apis: seq<Api>, released: seq<Handle>)
      requires pFactory != Null
      modifies this`pTarget
      ensures Valid()
      ensures ok == Succeeded(target.status)
      ensures pTarget == target.Written()
      ensures released == Holding(old(pTarget), RenderTarget)
      ensures apis == [GetClientRect, CreateHwndRenderTarget]
    {
      released := Holding(pTarget, RenderTarget);
      apis := [GetClientRect, CreateHwndRenderTarget];
      pTarget := target.Written();
      ok := Succeeded(target.status);
    }

    /** BeginDraw(): run an empty paint cycle on the window, then open the
        target for drawing; false exactly when there is no target. */
    method BeginDraw() returns (ok: bool, apis: seq<Api>)
      ensures ok <==> pTarget != Null
      ensures |apis| == if ok then 3 else 2
      ensures apis[..2] == [BeginPaint, EndPaint]
      ensures TargetBeginDraw in apis <==> ok
    {
      apis := [BeginPaint, EndPaint];
      if pTarget == Null {
        return false, apis;
      }
      apis := apis + [TargetBeginDraw];
      ok := true;
    }

    /** DrawControl(rect, text, format, colours, background bitmap = nullptr):
        refuses, drawing nothing, exactly when text is given without a text
        format; otherwise fills the background and then draws any text. */
    method DrawControl(text: Option<string>, format: Ptr, bgBitmap: Ptr := Null)
      returns (ok: bool, apis: seq<Api>)
      requires (text.Some? && format == Null) || pTarget != Null
      ensures ok <==> !(text.Some? && format == Null)
      ensures !ok ==> apis == []
      ensures ok ==> apis == FillCalls(bgBitmap) +
                            (if text.Some? then [CreateSolidColorBrush, DrawText, ReleaseBrush] else [])
    {
      if text.Some? && format == Null {
        return false, [];
      }
      apis := FillCalls(bgBitmap);
      if text.Some? {
        apis := apis + [CreateSolidColorBrush, DrawText, ReleaseBrush];
      }
      ok := true;
    }

    /** DrawProgressBar(rect, percentage, colours, bitmaps = nullptr): fills
        the background and then the progress part, each from its bitmap or
        its colour, and always reports success. */
    method DrawProgressBar(frontBitmap: Ptr := Null, bgBitmap: Ptr := Null)
      returns (ok: bool, apis: seq<Api>)
      requires pTarget != Null
      ensures ok
      ensures apis == FillCalls(bgBitmap) + FillCalls(frontBitmap)
    {
      apis := FillCalls(bgBitmap) + FillCalls(frontBitmap);
      ok := true;
    }

    /** EndDraw(callback = nullptr): close the frame. Without a target, false.
        When the target reports D2DERR_RECREATE_TARGET, a given callback is
        called once; if it declines, false without a rebuild, otherwise the
        result of RefreshResource. Every other status, failing ones included,
        gives true. */
    method EndDraw(endStatus: HResult, target: Creation, cb: Callback := NoCallback)
      returns (ok: bool, apis: seq<Api>, released: seq<Handle>)
      requires Valid()
      modifies this`pTarget
      ensures Valid()
      ensures old(pTarget) == Null ==> !ok && apis == [] && released == [] && pTarget == Null
      ensures old(pTarget) != Null && endStatus != D2DERR_RECREATE_TARGET ==>
        ok && apis == [TargetEndDraw] && released == [] && pTarget == old(pTarget)
      ensures old(pTarget) != Null && endStatus == D2DERR_RECREATE_TARGET ==>
        && apis == [TargetEndDraw] + (if cb.Callback? then [InvokeCallback] else []) +
                   (if Declines(cb) then [] else [GetClientRect, CreateHwndRenderTarget])
        && multiset(apis)[InvokeCallback] == (if cb.Callback? then 1 else 0)
        && (Declines(cb) ==> !ok && released == [] && pTarget == old(pTarget)
                             && CreateHwndRenderTarget !in apis)
        && (!Declines(cb) ==> ok == Succeeded(target.status) && pTarget == target.Written()
                              && released == Holding(old(pTarget), RenderTarget)
                              && CreateHwndRenderTarget in apis)
    {
      apis, released := [], [];
      if pTarget == Null {
        return false, apis, released;
      }
      apis := [TargetEndDraw];
      if endStatus == D2DERR_RECREATE_TARGET {
        if cb.Callback? {
          apis := apis + [InvokeCallback];
          if !cb.fn(Null) {
            return false, apis, released;
          }
        }
        var refreshApis;
        ok, refreshApis, released := RefreshResource(target);
        apis := apis + refreshApis;
        return;
      }
      ok := true;
    }
  }
}

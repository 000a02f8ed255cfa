/** The CreateCentralWindow and CreateCentralWindowEx macros of Graphics2D.h:
    a CreateWindowExW call whose position centres the window on the screen,
    computed with C++ integer division. */
module Window {
  import opened Native

  /** C++ `a / 2` on int: the quotient is truncated toward zero (Dafny's own
      `/` is Euclidean and rounds a negative odd `a` down instead). */
  function Half(a: int): (q: int)
    ensures a >= 0 ==> 0 <= a - 2 * q <= 1
    ensures a < 0 ==> -1 <= a - 2 * q <= 0
  {
    if a >= 0 then a / 2 else -((-a) / 2)
  }

  /** The two divisions differ exactly on the negative odd numbers. */
  lemma HalfVersusEuclidean(a: int)
    ensures Half(a) == a / 2 <==> a >= 0 || a % 2 == 0
    ensures Half(a) != a / 2 ==> Half(a) == a / 2 + 1
  {
  }

  /** (screen - size) / 2: the offset that centres `size` within `screen`. */
  function CentralOrigin(screen: int, size: int): (x: int)
    ensures size <= screen ==> 0 <= x && 0 <= (screen - (x + size)) - x <= 1
    ensures size > screen ==> -1 <= (screen - (x + size)) - x <= 0
    ensures x < 0 <==> size >= screen + 2
  {
    Half(screen - size)
  }

  /** The arguments a CreateWindowExW call receives. */
  datatype CreateWindowCall = CreateWindowCall(
    exStyle: U32, className: string, windowName: string, style: U32,
    x: int, y: int, width: int, height: int,
    parent: Ptr, menu: Ptr, instance: Ptr, param: Ptr)

  /** CreateCentralWindow: extended style 0, the size passed through, and a
      position centring the window on a screen of the given metrics
      (GetSystemMetrics(SM_CXSCREEN) and (SM_CYSCREEN)). */
  function CreateCentralWindow(className: string, windowName: string, style: U32,
                               width: int, height: int,
                               parent: Ptr, menu: Ptr, instance: Ptr, param: Ptr,
                               screenWidth: int, screenHeight: int): (c: CreateWindowCall)
    ensures c.exStyle == 0 && c.style == style
    ensures c.className == className && c.windowName == windowName
    ensures c.width == width && c.height == height
    ensures c.x == CentralOrigin(screenWidth, width) && c.y == CentralOrigin(screenHeight, height)
    ensures c.parent == parent && c.menu == menu && c.instance == instance && c.param == param
    ensures -1 <= screenWidth - (2 * c.x + c.width) <= 1
    ensures -1 <= screenHeight - (2 * c.y + c.height) <= 1
    ensures c.x < 0 <==> width >= screenWidth + 2
    ensures c.y < 0 <==> height >= screenHeight + 2
  {
    CreateWindowCall(0, className, windowName, style,
                     CentralOrigin(screenWidth, width), CentralOrigin(screenHeight, height),
                     width, height, parent, menu, instance, param)
  }

  /** CreateCentralWindowEx: the same call, with the given extended style. */
  function CreateCentralWindowEx(exStyle: U32, className: string, windowName: string, style: U32,
                                 width: int, height: int,
                                 parent: Ptr, menu: Ptr, instance: Ptr, param: Ptr,
                                 screenWidth: int, screenHeight: int): (c: CreateWindowCall)
    ensures c == CreateCentralWindow(className, windowName, style, width, height,
                                     parent, menu, instance, param,
                                     screenWidth, screenHeight).(exStyle := exStyle)
  {
    CreateWindowCall(exStyle, className, windowName, style,
                     CentralOrigin(screenWidth, width), CentralOrigin(screenHeight, height),
                     width, height, parent, menu, instance, param)
  }
}

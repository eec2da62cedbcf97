// The registry tables of CGame: fixed-size slot arrays of menus, windows
// and callbacks. A slot is NULL or holds a pointer; registering fills the
// first NULL slot, unregistering clears the first slot holding the given object.
// Registering a menu or a window also makes it the only active one, and a
// window gets a priority above every window already registered.
//
// A menu, a window or a callback is identified by its pointer, an Id; the
// NULL argument is the None of the parameter. The active flag and the
// priority live with the object in the source; here they live in the slot
// that holds it.
module Registry {
  const MaxMenus := 20
  const MaxWindows := 100
  const MaxCallbacks := 100

  type Id = nat

  datatype Option<T> = None | Some(value: T)

  /** A slot of a table: NULL, or holding an entry. */
  datatype Slot<T> = Empty | Held(item: T)

  datatype Menu = Menu(id: Id, active: bool)
  datatype Window = Window(id: Id, active: bool, priority: int)

  // ---------------------------------------------------------------------
  // Slot searches shared by the three tables.

  /** The first NULL slot, or |s| when every slot is taken. */
  function FirstFree<T>(s: seq<Slot<T>>): (k: nat)
    ensures k <= |s|
    ensures k < |s| ==> s[k].Empty?
    ensures forall i | 0 <= i < k :: s[i].Held?
  {
    if s == [] then 0
    else if s[0].Empty? then 0
    else 1 + FirstFree(s[1..])
  }

  /** The nearest held slot below slot i, if any. */
  function Below<T>(s: seq<Slot<T>>, i: nat): (j: Option<nat>)
    requires i <= |s|
    ensures j.Some? ==> j.value < i && s[j.value].Held? && forall k | j.value < k < i :: s[k].Empty?
    ensures j.None? ==> forall k | 0 <= k < i :: s[k].Empty?
  {
    if i == 0 then None
    else if s[i - 1].Held? then Some(i - 1)
    else Below(s, i - 1)
  }

  /** The identifier a menu slot holds, None for NULL. */
  function MenuId(m: Slot<Menu>): Option<Id>
  {
    if m.Held? then Some(m.item.id) else None
  }

  /** The identifier a window slot holds, None for NULL. */
  function WindowId(w: Slot<Window>): Option<Id>
  {
    if w.Held? then Some(w.item.id) else None
  }

  /** The first slot holding the menu, or |s|. */
  function MenuIndex(s: seq<Slot<Menu>>, id: Id): (k: nat)
    ensures k <= |s|
    ensures k < |s| ==> s[k].Held? && s[k].item.id == id
    ensures forall i | 0 <= i < k :: !(s[i].Held? && s[i].item.id == id)
  {
    if s == [] then 0
    else if s[0].Held? && s[0].item.id == id then 0
    else 1 + MenuIndex(s[1..], id)
  }

  /** The first slot holding the window, or |s|. */
  function WindowIndex(s: seq<Slot<Window>>, id: Id): (k: nat)
    ensures k <= |s|
    ensures k < |s| ==> s[k].Held? && s[k].item.id == id
    ensures forall i | 0 <= i < k :: !(s[i].Held? && s[i].item.id == id)
  {
    if s == [] then 0
    else if s[0].Held? && s[0].item.id == id then 0
    else 1 + WindowIndex(s[1..], id)
  }

  /** The first slot holding the callback, or |s|. */
  function CallbackIndex(s: seq<Slot<Id>>, cb: Id): (k: nat)
    ensures k <= |s|
    ensures k < |s| ==> s[k] == Held(cb)
    ensures forall i | 0 <= i < k :: s[i] != Held(cb)
  {
    if s == [] then 0
    else if s[0] == Held(cb) then 0
    else 1 + CallbackIndex(s[1..], cb)
  }

  // ---------------------------------------------------------------------
  // Menus.

  function SetMenuActive(m: Slot<Menu>, on: bool): Slot<Menu>
  {
    if m.Held? then Held(m.item.(active := on)) else Empty
  }

  /** Slot j after RegisterMenu(id): the first free slot takes the menu,
      active; every other held slot is made inactive. */
  function MenuAfterRegister(s: seq<Slot<Menu>>, id: Id, j: nat): Slot<Menu>
    requires j < |s|
  {
    if j == FirstFree(s) then Held(Menu(id, true)) else SetMenuActive(s[j], false)
  }

  function RegisteredMenus(s: seq<Slot<Menu>>, id: Id): (t: seq<Slot<Menu>>)
    ensures |t| == |s|
  {
    seq(|s|, j requires 0 <= j < |s| => MenuAfterRegister(s, id, j))
  }

  /** The menu table after UnregisterMenu(id): the first slot holding the
      menu is cleared and the nearest held slot below it made active. */
  function UnregisteredMenus(s: seq<Slot<Menu>>, id: Id): (t: seq<Slot<Menu>>)
    ensures |t| == |s|
  {
    var i := MenuIndex(s, id);
    if i == |s| then s
    else
      var b := Below(s, i);
      var s' := if b.Some? then s[b.value := SetMenuActive(s[b.value], true)] else s;
      s'[i := Empty]
  }

  /** Registering succeeds exactly when a slot is free. */
  lemma FreeSlot<T>(s: seq<Slot<T>>)
    ensures FirstFree(s) < |s| <==> exists i | 0 <= i < |s| :: s[i].Empty?
  {
    if FirstFree(s) == |s| {
      forall i | 0 <= i < |s| ensures s[i].Held? { }
    }
  }

  /** The menu goes in the first free slot, active; every other slot keeps
      the menu it held, made inactive. So the new menu is the only active
      one, and without a free slot none is active and none is added. */
  lemma RegisterMenuOutcome(s: seq<Slot<Menu>>, id: Id, i: nat)
    requires i < |s|
    ensures var t := RegisteredMenus(s, id);
      (i == FirstFree(s) ==> t[i] == Held(Menu(id, true))) &&
      (i != FirstFree(s) ==> MenuId(t[i]) == MenuId(s[i]) && !(t[i].Held? && t[i].item.active))
  {
    assert RegisteredMenus(s, id)[i] == MenuAfterRegister(s, id, i);
  }

  /** Unregistering succeeds exactly when the menu is registered. Only the
      first slot holding it is cleared; at most one other slot changes, the
      nearest held slot below, which keeps its menu and is made active. */
  lemma UnregisterMenuOutcome(s: seq<Slot<Menu>>, id: Id, j: nat)
    requires j < |s|
    ensures var t := UnregisteredMenus(s, id); var i := MenuIndex(s, id);
      (i < |s| <==> exists m | 0 <= m < |s| :: s[m].Held? && s[m].item.id == id) &&
      (j == i ==> t[j].Empty?) &&
      (j != i ==> MenuId(t[j]) == MenuId(s[j])) &&
      (j != i && t[j] != s[j] ==> Below(s, i) == Some(j) && t[j].item.active)
  {
  }

  /** Registering a menu the table does not hold, then unregistering it,
      leaves every slot holding the menu it held before. */
  lemma MenuRoundTrip(s: seq<Slot<Menu>>, id: Id)
    requires FirstFree(s) < |s|
    requires forall i | 0 <= i < |s| :: !(s[i].Held? && s[i].item.id == id)
    ensures var u := UnregisteredMenus(RegisteredMenus(s, id), id);
      forall i | 0 <= i < |s| :: MenuId(u[i]) == MenuId(s[i])
  {
    var t := RegisteredMenus(s, id);
    var k := FirstFree(s);
    NewMenuIndex(s, id);
    var u := UnregisteredMenus(t, id);
    forall i | 0 <= i < |s|
      ensures MenuId(u[i]) == MenuId(s[i])
    {
      RegisterMenuOutcome(s, id, i);
      UnregisterMenuOutcome(t, id, i);
      if i == k {
        assert u[i].Empty? && s[i].Empty?;
      } else {
        assert MenuId(u[i]) == MenuId(t[i]);
      }
    }
  }

  /** A menu the table does not hold is found, once registered, in the
      slot it was put in. */
  lemma NewMenuIndex(s: seq<Slot<Menu>>, id: Id)
    requires FirstFree(s) < |s|
    requires forall i | 0 <= i < |s| :: !(s[i].Held? && s[i].item.id == id)
    ensures MenuIndex(RegisteredMenus(s, id), id) == FirstFree(s)
  {
    var t := RegisteredMenus(s, id);
    var k := FirstFree(s);
    assert t[k] == MenuAfterRegister(s, id, k);
    forall i | 0 <= i < k
      ensures !(t[i].Held? && t[i].item.id == id)
    {
      assert t[i] == MenuAfterRegister(s, id, i);
    }
    MenuIndexIs(t, id, k);
  }

  lemma MenuIndexIs(s: seq<Slot<Menu>>, id: Id, k: nat)
    requires k < |s| && s[k].Held? && s[k].item.id == id
    requires forall i | 0 <= i < k :: !(s[i].Held? && s[i].item.id == id)
    ensures MenuIndex(s, id) == k
  {
  }

  /** The slot UnregisterMenu as written activates: Menus[i-1], whenever
      some slot below i is held. */
  function MenuToActivateAsWritten(s: seq<Slot<Menu>>, i: nat): Option<nat>
    requires i <= |s|
  {
    if Below(s, i).Some? then Some(i - 1) else None
  }

  /** Whenever the slot the code as written activates is held, it is the
      nearest held slot below, the one UnregisteredMenus activates. */
  lemma AsWrittenAgreesWhenHeld(s: seq<Slot<Menu>>, i: nat)
    requires i <= |s|
    requires var t := MenuToActivateAsWritten(s, i); t.Some? ==> s[t.value].Held?
    ensures MenuToActivateAsWritten(s, i) == Below(s, i)
  {
  }

  /** Register menus 1, 3 and 2 in an empty table, unregister 3, then
      unregister 2: the code as written activates slot 1, which is NULL by
      then, while slot 0 is the held slot below. */
  lemma ActivationOfEmptySlot()
    ensures var s0 := seq(MaxMenus, _ => Empty);
      var s1 := RegisteredMenus(RegisteredMenus(RegisteredMenus(s0, 1), 3), 2);
      var s2 := UnregisteredMenus(s1, 3);
      MenuIndex(s2, 2) == 2 &&
      MenuToActivateAsWritten(s2, 2) == Some(1) && s2[1].Empty? &&
      Below(s2, 2) == Some(0)
  {
    var s0: seq<Slot<Menu>> := seq(MaxMenus, _ => Empty);
    assert FirstFree(s0) == 0;
    var a := RegisteredMenus(s0, 1);
    assert a[0] == Held(Menu(1, true)) && a[1] == Empty && a[2] == Empty;
    assert FirstFree(a) == 1;
    var b := RegisteredMenus(a, 3);
    assert b[0] == Held(Menu(1, false)) && b[1] == Held(Menu(3, true)) && b[2] == Empty;
    assert FirstFree(b) == 2;
    var c := RegisteredMenus(b, 2);
    assert c[0] == Held(Menu(1, false)) && c[1] == Held(Menu(3, false)) && c[2] == Held(Menu(2, true));
    assert MenuIndex(c, 3) == 1;
    var d := UnregisteredMenus(c, 3);
    assert d[0] == Held(Menu(1, true)) && d[1] == Empty && d[2] == Held(Menu(2, true));
    assert MenuIndex(d, 2) == 2;
  }

  // ---------------------------------------------------------------------
  // Windows.

  function SetWindowActive(w: Slot<Window>, on: bool): Slot<Window>
  {
    if w.Held? then Held(w.item.(active := on)) else Empty
  }

  /** The highest priority among the held windows, and 0 when it is not
      positive or no window is held. */
  function HighestPriority(s: seq<Slot<Window>>): (p: int)
    ensures p >= 0
    ensures forall i | 0 <= i < |s| && s[i].Held? :: s[i].item.priority <= p
    ensures p == 0 || exists i | 0 <= i < |s| :: s[i].Held? && s[i].item.priority == p
  {
    if s == [] then 0
    else
      var p := HighestPriority(s[..|s| - 1]);
      var w := s[|s| - 1];
      if w.Held? && w.item.priority > p then w.item.priority else p
  }

  /** Slot j after RegisterWindow(id): the first free slot takes the window,
      active, one above the highest priority; every other held slot is made
      inactive. */
  function WindowAfterRegister(s: seq<Slot<Window>>, id: Id, j: nat): Slot<Window>
    requires j < |s|
  {
    if j == FirstFree(s) then Held(Window(id, true, HighestPriority(s) + 1))
    else SetWindowActive(s[j], false)
  }

  function RegisteredWindows(s: seq<Slot<Window>>, id: Id): (t: seq<Slot<Window>>)
    ensures |t| == |s|
  {
    seq(|s|, j requires 0 <= j < |s| => WindowAfterRegister(s, id, j))
  }

  function UnregisteredWindows(s: seq<Slot<Window>>, id: Id): (t: seq<Slot<Window>>)
    ensures |t| == |s|
  {
    var i := WindowIndex(s, id);
    if i == |s| then s
    else
      var b := Below(s, i);
      var s' := if b.Some? then s[b.value := SetWindowActive(s[b.value], true)] else s;
      s'[i := Empty]
  }

  /** The window goes in the first free slot, active, one above the
      highest priority held, so at least 1 and above every other window;
      every other slot keeps its window and that window's priority, made
      inactive. */
  lemma RegisterWindowOutcome(s: seq<Slot<Window>>, id: Id, i: nat)
    requires i < |s|
    ensures var t := RegisteredWindows(s, id); var top := HighestPriority(s) + 1;
      (i == FirstFree(s) ==> t[i] == Held(Window(id, true, top)) && top >= 1) &&
      (i != FirstFree(s) ==> WindowId(t[i]) == WindowId(s[i])) &&
      (i != FirstFree(s) && t[i].Held? ==> !t[i].item.active && t[i].item.priority == s[i].item.priority < top)
  {
    assert RegisteredWindows(s, id)[i] == WindowAfterRegister(s, id, i);
  }

  /** Unregistering succeeds exactly when the window is registered. Only the
      first slot holding it is cleared; at most one other slot changes, the
      nearest held slot below, which keeps its window and is made active. */
  lemma UnregisterWindowOutcome(s: seq<Slot<Window>>, id: Id, j: nat)
    requires j < |s|
    ensures var t := UnregisteredWindows(s, id); var i := WindowIndex(s, id);
      (i < |s| <==> exists m | 0 <= m < |s| :: s[m].Held? && s[m].item.id == id) &&
      (j == i ==> t[j].Empty?) &&
      (j != i ==> WindowId(t[j]) == WindowId(s[j])) &&
      (j != i && t[j] != s[j] ==> Below(s, i) == Some(j) && t[j].item.active)
  {
  }

  // ---------------------------------------------------------------------
  // Callbacks.

  function RegisteredCallbacks(s: seq<Slot<Id>>, cb: Id): (t: seq<Slot<Id>>)
    ensures |t| == |s|
  {
    var k := FirstFree(s);
    if k < |s| then s[k := Held(cb)] else s
  }

  function UnregisteredCallbacks(s: seq<Slot<Id>>, cb: Id): (t: seq<Slot<Id>>)
    ensures |t| == |s|
  {
    var i := CallbackIndex(s, cb);
    if i < |s| then s[i := Empty] else s
  }

  /** Registering a callback the table does not hold, then unregistering
      it, gives back the table as it was. */
  lemma CallbackRoundTrip(s: seq<Slot<Id>>, cb: Id)
    requires FirstFree(s) < |s|
    requires forall i | 0 <= i < |s| :: s[i] != Held(cb)
    ensures UnregisteredCallbacks(RegisteredCallbacks(s, cb), cb) == s
  {
    var t := RegisteredCallbacks(s, cb);
    var k := FirstFree(s);
    CallbackIndexIs(t, cb, k);
  }

  lemma CallbackIndexIs(s: seq<Slot<Id>>, cb: Id, k: nat)
    requires k < |s| && s[k] == Held(cb)
    requires forall i | 0 <= i < k :: s[i] != Held(cb)
    ensures CallbackIndex(s, cb) == k
  {
  }

  /** Unregistering clears the first slot holding the callback and no
      other: a callback registered twice stays registered once. */
  lemma UnregisterCallbackFirstOnly(s: seq<Slot<Id>>, cb: Id, j: nat)
    requires j < |s| && s[j] == Held(cb) && j != CallbackIndex(s, cb)
    ensures UnregisteredCallbacks(s, cb)[j] == Held(cb)
    ensures CallbackIndex(s, cb) < j
  {
  }

  // ---------------------------------------------------------------------
  // The game's tables, updated in place.

  class Game {
    const menus: array<Slot<Menu>>
    const windows: array<Slot<Window>>
    const callbacks: array<Slot<Id>>

    predicate Valid()
    {
      menus.Length == MaxMenus && windows.Length == MaxWindows && callbacks.Length == MaxCallbacks
    }

    /** Every slot of every table starts NULL. */
    constructor()
      ensures Valid()
      ensures forall i | 0 <= i < MaxMenus :: menus[i].Empty?
      ensures forall i | 0 <= i < MaxWindows :: windows[i].Empty?
      ensures forall i | 0 <= i < MaxCallbacks :: callbacks[i].Empty?
    {
      menus := new Slot<Menu>[MaxMenus](_ => Empty);
      windows := new Slot<Window>[MaxWindows](_ => Empty);
      callbacks := new Slot<Id>[MaxCallbacks](_ => Empty);
    }

    method RegisterMenu(menu: Option<Id>) returns (success: bool)
      requires Valid()
      modifies menus
      ensures menu.None? ==> !success && menus[..] == old(menus[..])
      ensures menu.Some? ==> success == (FirstFree(old(menus[..])) < MaxMenus)
      ensures menu.Some? ==> menus[..] == RegisteredMenus(old(menus[..]), menu.value)
    {
      success := false;
      if menu.None? {
        return;
      }
      ghost var s := menus[..];
      var i := 0;
      while i < MaxMenus
        invariant 0 <= i <= MaxMenus
        invariant success == (FirstFree(s) < i)
        invariant forall j | 0 <= j < i :: menus[j] == MenuAfterRegister(s, menu.value, j)
        invariant forall j | i <= j < MaxMenus :: menus[j] == s[j]
      {
        if !success && menus[i].Empty? {
          menus[i] := Held(Menu(menu.value, true));
          success := true;
        } else if menus[i].Held? {
          menus[i] := SetMenuActive(menus[i], false);
        }
        i := i + 1;
      }
      assert menus[..] == RegisteredMenus(s, menu.value);
    }

    method UnregisterMenu(menu: Option<Id>) returns (success: bool)
      requires Valid()
      modifies menus
      ensures menu.None? ==> !success && menus[..] == old(menus[..])
      ensures menu.Some? ==> success == (MenuIndex(old(menus[..]), menu.value) < MaxMenus)
      ensures menu.Some? ==> menus[..] == UnregisteredMenus(old(menus[..]), menu.value)
    {
      if menu.None? {
        return false;
      }
      ghost var s := menus[..];
      var i := 0;
      while i < MaxMenus
        invariant 0 <= i <= MaxMenus && i <= MenuIndex(s, menu.value)
        invariant menus[..] == s
      {
        if menus[i].Held? && menus[i].item.id == menu.value {
          var j := ActivateBelow(menus, i);
          menus[i] := Empty;
          return true;
        }
        i := i + 1;
      }
      return false;
    }

    method RegisterWindow(window: Option<Id>) returns (success: bool)
      requires Valid()
      modifies windows
      ensures window.None? ==> !success && windows[..] == old(windows[..])
      ensures window.Some? ==> success == (FirstFree(old(windows[..])) < MaxWindows)
      ensures window.Some? ==> windows[..] == RegisteredWindows(old(windows[..]), window.value)
    {
      success := false;
      ghost var s := windows[..];
      var highest := HighestHeld(windows);
      if window.None? {
        return;
      }
      var i := 0;
      while i < MaxWindows
        invariant 0 <= i <= MaxWindows
        invariant success == (FirstFree(s) < i)
        invariant forall j | 0 <= j < i :: windows[j] == WindowAfterRegister(s, window.value, j)
        invariant forall j | i <= j < MaxWindows :: windows[j] == s[j]
      {
        if !success && windows[i].Empty? {
          windows[i] := Held(Window(window.value, true, highest + 1));
          success := true;
        } else if windows[i].Held? {
          windows[i] := SetWindowActive(windows[i], false);
        }
        i := i + 1;
      }
      assert windows[..] == RegisteredWindows(s, window.value);
    }

    method UnregisterWindow(window: Option<Id>) returns (success: bool)
      requires Valid()
      modifies windows
      ensures window.None? ==> !success && windows[..] == old(windows[..])
      ensures window.Some? ==> success == (WindowIndex(old(windows[..]), window.value) < MaxWindows)
      ensures window.Some? ==> windows[..] == UnregisteredWindows(old(windows[..]), window.value)
    {
      if window.None? {
        return false;
      }
      ghost var s := windows[..];
      var i := 0;
      while i < MaxWindows
        invariant 0 <= i <= MaxWindows && i <= WindowIndex(s, window.value)
        invariant windows[..] == s
      {
        if windows[i].Held? && windows[i].item.id == window.value {
          var j := ActivateWindowBelow(windows, i);
          windows[i] := Empty;
          return true;
        }
        i := i + 1;
      }
      return false;
    }

    method RegisterCallback(callback: Option<Id>) returns (success: bool)
      requires Valid()
      modifies callbacks
      ensures callback.None? ==> !success && callbacks[..] == old(callbacks[..])
      ensures callback.Some? ==> success == (FirstFree(old(callbacks[..])) < MaxCallbacks)
      ensures callback.Some? ==> callbacks[..] == RegisteredCallbacks(old(callbacks[..]), callback.value)
    {
      if callback.None? {
        return false;
      }
      ghost var s := callbacks[..];
      var i := 0;
      while i < MaxCallbacks
        invariant 0 <= i <= MaxCallbacks && i <= FirstFree(s)
        invariant callbacks[..] == s
      {
        if callbacks[i].Empty? {
          callbacks[i] := Held(callback.value);
          return true;
        }
        i := i + 1;
      }
      return false;
    }

    method UnregisterCallback(callback: Option<Id>) returns (success: bool)
      requires Valid()
      modifies callbacks
      ensures callback.None? ==> !success && callbacks[..] == old(callbacks[..])
      ensures callback.Some? ==> success == (CallbackIndex(old(callbacks[..]), callback.value) < MaxCallbacks)
      ensures callback.Some? ==> callbacks[..] == UnregisteredCallbacks(old(callbacks[..]), callback.value)
    {
      if callback.None? {
        return false;
      }
      ghost var s := callbacks[..];
      var i := 0;
      while i < MaxCallbacks
        invariant 0 <= i <= MaxCallbacks && i <= CallbackIndex(s, callback.value)
        invariant callbacks[..] == s
      {
        if callbacks[i] == Held(callback.value) {
          callbacks[i] := Empty;
          return true;
        }
        i := i + 1;
      }
      return false;
    }
  }

  /** The search below slot i of UnregisterMenu, which activates the held
      slot it finds (the code as written activates slot i-1 instead; see
      MenuToActivateAsWritten). */
  method ActivateBelow(a: array<Slot<Menu>>, i: nat) returns (found: Option<nat>)
    requires i < a.Length
    modifies a
    ensures found == Below(old(a[..]), i)
    ensures a[..] == if found.Some? then old(a[..])[found.value := SetMenuActive(old(a[found.value]), true)] else old(a[..])
  {
    var j := i;
    while j > 0
      invariant 0 <= j <= i
      invariant Below(a[..], i) == Below(a[..], j)
      invariant a[..] == old(a[..])
    {
      if a[j - 1].Held? {
        a[j - 1] := SetMenuActive(a[j - 1], true);
        return Some(j - 1);
      }
      j := j - 1;
    }
    return None;
  }

  /** The highest priority held in `a`, 0 when no window is held: a scan
      over every slot that changes nothing. */
  method HighestHeld(a: array<Slot<Window>>) returns (highest: int)
    ensures highest == HighestPriority(a[..])
  {
    highest := 0;
    var i := 0;
    while i < a.Length
      invariant 0 <= i <= a.Length
      invariant highest == HighestPriority(a[..i])
    {
      assert a[..i + 1][..i] == a[..i];
      if a[i].Held? && a[i].item.priority > highest {
        highest := a[i].item.priority;
      }
      i := i + 1;
    }
    assert a[..a.Length] == a[..];
  }

  /** The search below slot i of UnregisterWindow, which activates the held
      slot it finds. */
  method ActivateWindowBelow(a: array<Slot<Window>>, i: nat) returns (found: Option<nat>)
    requires i < a.Length
    modifies a
    ensures found == Below(old(a[..]), i)
    ensures a[..] == if found.Some? then old(a[..])[found.value := SetWindowActive(old(a[found.value]), true)] else old(a[..])
  {
    var j := i;
    while j > 0
      invariant 0 <= j <= i
      invariant Below(a[..], i) == Below(a[..], j)
      invariant a[..] == old(a[..])
    {
      if a[j - 1].Held? {
        a[j - 1] := SetWindowActive(a[j - 1], true);
        return Some(j - 1);
      }
      j := j - 1;
    }
    return None;
  }
}

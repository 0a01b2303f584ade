/**
 * The heads-up display pinned to the right of the Gmail page
 * (ydn.crm.inj.Hud): a drawer that opens and closes with a single arrow
 * icon, a top offset the user drags and that is saved to and restored from
 * local storage as the text "NNpx" without its unit, and the setup and
 * wrong-login panels driven by the user's login state.
 */
module HudModel {
  import opened Js
  import opened UserSettings

  const CSS_CLASS_OPEN := "open"
  const CSS_CLASS_INVALID := "invalid"
  const ICON_OPEN := "arrow-drop-left"
  const ICON_CLOSED := "arrow-drop-right"
  /** `top_px` when nothing is stored. */
  const DEFAULT_TOP := 200

  /** The data the wrong-login template is rendered with (the extension id is not modelled). */
  datatype WrongLogin = WrongLogin(ydnLogin: string, gmail: string)

  /** The root classes once the drawer is set to `val`: 'open' exactly when `val`, the rest untouched. */
  function WithDrawer(classes: set<string>, val: bool): set<string> {
    if val then classes + {CSS_CLASS_OPEN} else classes - {CSS_CLASS_OPEN}
  }

  /** The arrow icon shown for a drawer state. */
  function ArrowIcon(open: bool): string {
    if open then ICON_OPEN else ICON_CLOSED
  }

  /** Clicking the drawer button twice gives back the class set it started from. */
  lemma ClickTwice(classes: set<string>)
    ensures var once := WithDrawer(classes, CSS_CLASS_OPEN !in classes);
      (CSS_CLASS_OPEN in once <==> CSS_CLASS_OPEN !in classes)
      && WithDrawer(once, CSS_CLASS_OPEN !in once) == classes
  {
    var once := WithDrawer(classes, CSS_CLASS_OPEN !in classes);
    if CSS_CLASS_OPEN in classes {
      assert once + {CSS_CLASS_OPEN} == classes;
    } else {
      assert once - {CSS_CLASS_OPEN} == classes;
    }
  }

  /** The top style a drag to `clientY` sets, if the pointer is inside the allowed band. */
  function DraggedTop(clientY: int): Option<string> {
    if 50 < clientY < 400 then Some(Decimal(clientY - 2) + "px") else None
  }

  /** `top.substr(0, top.length - 2)`: the text without its last two characters ('' when shorter). */
  function StripPx(top: string): string {
    if |top| >= 2 then top[..|top| - 2] else ""
  }

  /** `top_px` in `loadPosition_`: 200 when nothing is stored, else the stored text parsed in base 10 (None is NaN). */
  function StoredTopPx(stored: Option<string>): Option<int> {
    if stored.None? then Some(DEFAULT_TOP) else ParseInt(stored.value)
  }

  /** The top style `loadPosition_` applies: a stored value strictly between 50 and 400, as "NNpx". */
  function RestoredTop(stored: Option<string>): Option<string> {
    if stored.Some? && StoredTopPx(stored).Some? && 50 < StoredTopPx(stored).value < 400
    then Some(Decimal(StoredTopPx(stored).value) + "px")
    else None
  }

  /** The pixel amount the content's max-height reserves: `top_px + 40`, NaN (None) when `top_px` is NaN. */
  function MaxHeightReserve(stored: Option<string>): Option<int> {
    if StoredTopPx(stored).Some? then Some(StoredTopPx(stored).value + 40) else None
  }

  /** Saving a "NNpx" top stores exactly NN. */
  lemma StripPxDecimal(n: nat)
    ensures StripPx(Decimal(n) + "px") == Decimal(n)
  {
    assert (Decimal(n) + "px")[..|Decimal(n)|] == Decimal(n);
  }

  /**
   * A drag inside the band sets a top of 49..397 px; saved and loaded again it
   * is restored, unchanged, exactly when it exceeds 50: the drag band and the
   * restore band disagree on 49 and 50.
   */
  lemma DragThenRestore(clientY: int)
    requires DraggedTop(clientY).Some?
    ensures 49 <= clientY - 2 <= 397
    ensures var stored := Some(StripPx(DraggedTop(clientY).value));
      (RestoredTop(stored).Some? <==> clientY - 2 > 50)
      && (RestoredTop(stored).Some? ==> RestoredTop(stored) == DraggedTop(clientY))
      && MaxHeightReserve(stored) == Some(clientY - 2 + 40)
  {
    StripPxDecimal(clientY - 2);
    ParseIntDecimal(clientY - 2);
  }

  /** A drag to 51 or 52 px sets a top the next load ignores. */
  lemma DragNotRestored()
    ensures DraggedTop(51).Some? && RestoredTop(Some(StripPx(DraggedTop(51).value))).None?
    ensures DraggedTop(52).Some? && RestoredTop(Some(StripPx(DraggedTop(52).value))).None?
  {
    DragThenRestore(51);
    DragThenRestore(52);
  }

  class Hud {
    var rootClasses: set<string>           // root_el_.classList
    var arrowIcons: seq<string>            // icons inside .arrow-box
    var top: string                        // #sticky-hud-base style.top
    var maxHeightReserve: Option<int>      // N in `calc(100vh - Npx)` of .popup-content
    var storedTop: Option<string>          // the 'top' entry stored under POSITION_HUD_BASE
    var setupShown: bool                   // the setup panel is shown
    var contentShown: bool                 // .popup-content is shown
    var invalidPanelShown: bool            // the invalid-login panel is shown
    var invalidPanel: Option<WrongLogin>   // what the invalid-login panel was last rendered with

    /** Whenever the wrong-login panel is shown the root carries 'invalid'. */
    ghost predicate PanelConsistent()
      reads this
    {
      invalidPanelShown ==> CSS_CLASS_INVALID in rootClasses
    }

    /**
     * `render`, the state it sets up: a closed drawer with the right arrow,
     * the setup and invalid-login panels hidden. What local storage holds is
     * given as `stored`.
     */
    constructor (stored: Option<string>)
      ensures CSS_CLASS_OPEN !in rootClasses && arrowIcons == [ICON_CLOSED]
      ensures !setupShown && !invalidPanelShown && invalidPanel == None
      ensures storedTop == stored && PanelConsistent()
    {
      rootClasses := {};
      arrowIcons := [ICON_CLOSED];
      top := "";
      maxHeightReserve := None;
      storedTop := stored;
      setupShown := false;
      contentShown := false;
      invalidPanelShown := false;
      invalidPanel := None;
    }

    /**
     * `setDrawerOpen`: after the toggle and the add or remove that follows,
     * 'open' is on the root exactly when `val`; the arrow box holds the one
     * icon for that state.
     */
    method SetDrawerOpen(val: bool)
      modifies this`rootClasses, this`arrowIcons
      ensures rootClasses == WithDrawer(old(rootClasses), val)
      ensures (CSS_CLASS_OPEN in rootClasses <==> val) && rootClasses - {CSS_CLASS_OPEN} == old(rootClasses) - {CSS_CLASS_OPEN}
      ensures arrowIcons == [ArrowIcon(val)]
    {
      if CSS_CLASS_OPEN in rootClasses {
        rootClasses := rootClasses - {CSS_CLASS_OPEN};
      } else {
        rootClasses := rootClasses + {CSS_CLASS_OPEN};
      }
      arrowIcons := [];
      if val {
        rootClasses := rootClasses + {CSS_CLASS_OPEN};
        arrowIcons := arrowIcons + [ICON_OPEN];
      } else {
        rootClasses := rootClasses - {CSS_CLASS_OPEN};
        arrowIcons := arrowIcons + [ICON_CLOSED];
      }
    }

    /** `onClick_`: the drawer flips. */
    method OnClick()
      modifies this`rootClasses, this`arrowIcons
      ensures rootClasses == WithDrawer(old(rootClasses), CSS_CLASS_OPEN !in old(rootClasses))
      ensures CSS_CLASS_OPEN in rootClasses <==> CSS_CLASS_OPEN !in old(rootClasses)
      ensures arrowIcons == [ArrowIcon(CSS_CLASS_OPEN in rootClasses)]
    {
      SetDrawerOpen(CSS_CLASS_OPEN !in rootClasses);
    }

    /** `onDrawerRequest_`: the drawer opens only when `detail.open` is true, and closes otherwise (a missing value included). */
    method OnDrawerRequest(open: Option<bool>)
      modifies this`rootClasses, this`arrowIcons
      ensures rootClasses == WithDrawer(old(rootClasses), open == Some(true))
      ensures arrowIcons == [ArrowIcon(open == Some(true))]
    {
      SetDrawerOpen(open == Some(true));
    }

    /** `onRowResize_`: inside the band 50 < clientY < 400 the top becomes clientY - 2 px; elsewhere it is kept. */
    method OnRowResize(clientY: int)
      modifies this`top
      ensures top == (if DraggedTop(clientY).Some? then DraggedTop(clientY).value else old(top))
      ensures DraggedTop(clientY).Some? ==> ParseInt(StripPx(top)) == Some(clientY - 2) && 49 <= clientY - 2 <= 397
    {
      if clientY > 50 && clientY < 400 {
        var t := clientY - 2;
        top := Decimal(t) + "px";
        StripPxDecimal(t);
        ParseIntDecimal(t);
      }
    }

    /** `savePosition_`: the top style without its 'px' is stored. */
    method SavePosition()
      modifies this`storedTop
      ensures storedTop == Some(StripPx(top))
    {
      var topPx := if |top| >= 2 then top[..|top| - 2] else "";
      storedTop := Some(topPx);
    }

    /**
     * `onRowDragEnd_`: once the listeners and the cursor are reset, the top
     * the drag left is saved, so a later `LoadPosition` can restore it.
     */
    method OnRowDragEnd()
      modifies this`storedTop
      ensures storedTop == Some(StripPx(top))
    {
      SavePosition();
    }

    /**
     * `loadPosition_`, once storage answers: a stored value strictly inside
     * 50..400 becomes the top; the max-height reserve is always recomputed
     * from `top_px + 40`, also for a value that was not applied; the callback
     * runs last, when there is one.
     */
    method LoadPosition(hasCallback: bool) returns (callbackRan: bool)
      modifies this`top, this`maxHeightReserve
      ensures top == (if RestoredTop(storedTop).Some? then RestoredTop(storedTop).value else old(top))
      ensures maxHeightReserve == MaxHeightReserve(storedTop)
      ensures storedTop.None? ==> top == old(top) && maxHeightReserve == Some(DEFAULT_TOP + 40)
      ensures callbackRan == hasCallback
    {
      var topPx: Option<int> := Some(DEFAULT_TOP);
      if storedTop.Some? {
        topPx := ParseInt(storedTop.value);
        if topPx.Some? && topPx.value > 50 && topPx.value < 400 {
          top := Decimal(topPx.value) + "px";
        }
      }
      maxHeightReserve := if topPx.Some? then Some(topPx.value + 40) else None;
      callbackRan := false;
      if hasCallback {
        callbackRan := true;
      }
    }

    /**
     * `handleUserLogin_`. Logged in: the setup panel is hidden and the content
     * shown; a valid login hides the invalid-login panel and drops 'invalid',
     * a wrong one adds 'invalid' and shows the panel rendered with the login
     * e-mail and the Gmail address ('?' when unknown). Logged out: content and
     * setup are shown, the drawer opens, the invalid-login panel is hidden,
     * and 'invalid' is left as it was.
     */
    method HandleUserLogin(us: UserSetting)
      modifies this`setupShown, this`contentShown, this`invalidPanelShown, this`invalidPanel,
               this`rootClasses, this`arrowIcons
      ensures PanelConsistent() && contentShown
      ensures us.login && us.validLogin ==>
        !setupShown && !invalidPanelShown && rootClasses == old(rootClasses) - {CSS_CLASS_INVALID}
        && invalidPanel == old(invalidPanel) && arrowIcons == old(arrowIcons)
      ensures us.login && !us.validLogin ==>
        !setupShown && invalidPanelShown && rootClasses == old(rootClasses) + {CSS_CLASS_INVALID}
        && invalidPanel == Some(WrongLogin(us.loginEmail, Or(us.gmail, "?"))) && arrowIcons == old(arrowIcons)
      ensures !us.login ==>
        setupShown && !invalidPanelShown && rootClasses == WithDrawer(old(rootClasses), true)
        && (CSS_CLASS_INVALID in rootClasses <==> CSS_CLASS_INVALID in old(rootClasses))
        && invalidPanel == old(invalidPanel) && arrowIcons == [ICON_OPEN]
    {
      if us.login {
        setupShown := false;
        contentShown := true;
        if us.validLogin {
          invalidPanelShown := false;
          rootClasses := rootClasses - {CSS_CLASS_INVALID};
        } else {
          rootClasses := rootClasses + {CSS_CLASS_INVALID};
          invalidPanel := Some(WrongLogin(us.loginEmail, Or(us.gmail, "?")));
          invalidPanelShown := true;
        }
      } else {
        contentShown := true;
        setupShown := true;
        SetDrawerOpen(true);
        invalidPanelShown := false;
      }
    }
  }
}

/**
 * The e-mail tracking application inside Gmail (ydn.crm.inj.TrackingApp): the
 * tracking-result widget is created lazily, once, the first time the attach
 * step runs under a valid login, and is handed to the message-heading
 * injector at that moment.
 *
 * Widgets are opaque objects identified by their creation number; the attach
 * steps run so far are recorded, as the login validity each one saw, in a
 * ghost history.
 */
module TrackingApp {
  import opened Js
  import opened UserSettings

  /** Whether a run of attach steps, given the login validity each one saw, creates the widget: some step saw a valid login. */
  function Created(logins: seq<bool>): bool
    decreases |logins|
  {
    logins != [] && (Created(logins[..|logins| - 1]) || logins[|logins| - 1])
  }

  /** The widget exists after a run of attach steps exactly when one of them saw a valid login. */
  lemma {:induction false} CreatedSpec(logins: seq<bool>)
    ensures Created(logins) <==> exists i :: 0 <= i < |logins| && logins[i]
    decreases |logins|
  {
    if logins != [] {
      var prefix := logins[..|logins| - 1];
      CreatedSpec(prefix);
      if Created(prefix) {
        var i :| 0 <= i < |prefix| && prefix[i];
        assert logins[i];
      }
      if exists i :: 0 <= i < |logins| && logins[i] {
        var i :| 0 <= i < |logins| && logins[i];
        if i < |prefix| { assert prefix[i]; }
      }
    }
  }

  /** Once created, the widget stays: further steps, logged out or not, do not undo it. */
  lemma {:induction false} CreatedStays(logins: seq<bool>, more: seq<bool>)
    requires Created(logins)
    ensures Created(logins + more)
    decreases |more|
  {
    if more == [] {
      assert logins + more == logins;
    } else {
      var more' := more[..|more| - 1];
      assert (logins + more)[..|logins + more| - 1] == logins + more';
      CreatedStays(logins, more');
    }
  }

  class TrackingApp {
    var trackResult: Option<nat>        // track_result_
    var widgetsCreated: nat             // tracking-result widgets created so far
    var injectorResults: seq<nat>       // heading_injector_.setTrackResult calls
    var sidebarCreated: bool            // sidebar_ and the desktop launcher exist
    var statusListened: bool            // login and logout events are listened to
    ghost var logins: seq<bool>         // the login validity each attach step saw

    /**
     * The widget exists exactly when some attach step saw a valid login; at
     * most one was ever created, and the heading injector received it once.
     */
    ghost predicate Valid()
      reads this
    {
      (trackResult.Some? <==> Created(logins))
      && (trackResult.None? ==> widgetsCreated == 0 && injectorResults == [])
      && (trackResult.Some? ==> widgetsCreated == 1 && trackResult.value == 0 && injectorResults == [0])
    }

    /** The constructor: no result widget yet. */
    constructor ()
      ensures Valid() && trackResult == None && logins == [] && !sidebarCreated && !statusListened
    {
      trackResult := None;
      widgetsCreated := 0;
      injectorResults := [];
      sidebarCreated := false;
      statusListened := false;
      logins := [];
    }

    /**
     * `attachResultPanel_`: under a valid login and without a widget, one is
     * created and handed to the heading injector; otherwise nothing changes.
     */
    method AttachResultPanel(us: UserSetting)
      requires Valid()
      modifies this`trackResult, this`widgetsCreated, this`injectorResults, this`logins
      ensures Valid() && logins == old(logins) + [us.validLogin]
      ensures old(trackResult).Some? ==>
        trackResult == old(trackResult) && widgetsCreated == old(widgetsCreated) && injectorResults == old(injectorResults)
      ensures old(trackResult).None? ==> (trackResult.Some? <==> us.validLogin)
    {
      assert logins + [us.validLogin] != [] && (logins + [us.validLogin])[..|logins|] == logins;
      logins := logins + [us.validLogin];
      if us.validLogin {
        if trackResult.None? {
          trackResult := Some(widgetsCreated);
          widgetsCreated := widgetsCreated + 1;
          injectorResults := injectorResults + [trackResult.value];
        }
      }
    }

    /** `init`, the state it sets: the sidebar exists, login events are listened to, and the attach step runs. */
    method Init(us: UserSetting)
      requires Valid()
      modifies this`trackResult, this`widgetsCreated, this`injectorResults, this`logins,
               this`sidebarCreated, this`statusListened
      ensures Valid() && sidebarCreated && statusListened && logins == old(logins) + [us.validLogin]
      ensures old(trackResult).Some? ==> trackResult == old(trackResult) && injectorResults == old(injectorResults)
      ensures old(trackResult).None? ==> (trackResult.Some? <==> us.validLogin)
    {
      sidebarCreated := true;
      statusListened := true;
      AttachResultPanel(us);
    }

    /** `onUserStatusChange`: every login or logout event runs the attach step. */
    method OnUserStatusChange(us: UserSetting)
      requires Valid()
      modifies this`trackResult, this`widgetsCreated, this`injectorResults, this`logins
      ensures Valid() && logins == old(logins) + [us.validLogin]
      ensures old(trackResult).Some? ==> trackResult == old(trackResult) && injectorResults == old(injectorResults)
      ensures old(trackResult).None? ==> (trackResult.Some? <==> us.validLogin)
    {
      AttachResultPanel(us);
    }
  }
}

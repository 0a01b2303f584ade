/**
 * The calendar setting panel (ydn.crm.gdata.CalendarSettingPanel): which
 * Google calendar is synchronised, and how the panel shows that choice.
 *
 * The panel keeps the calendar list and the selected calendar id; its view is
 * the sync checkbox, the visibility of the sync panel, the text and target of
 * the calendar link, and the message line. Status messages posted to the
 * shared status bar are kept as a list.
 */
module CalendarSetting {
  import opened Js

  /** One entry of the calendar list (GApps.CalendarListEntry). */
  datatype CalendarEntry = CalendarEntry(
    id: string,
    summary: Option<string>,
    primary: bool,
    accessRole: string
  )

  /** The calendar-sync user setting kept on the server. */
  datatype GDataCalSetting = GDataCalSetting(syncCalId: Option<string>)

  const LOADING_MESSAGE := "Loading data..."
  const DEFAULT_CALENDAR_NAME := "My Calendar"

  /** An entry the panel would propose for syncing: primary, or owned by the user. */
  predicate IsCandidate(c: CalendarEntry) {
    c.primary || c.accessRole == "owner"
  }

  /** Reference definition of the proposed calendar: the id of the first candidate entry. */
  function CandidateCal(items: seq<CalendarEntry>): Option<string>
    decreases |items|
  {
    if items == [] then None
    else if IsCandidate(items[0]) then Some(items[0].id)
    else CandidateCal(items[1..])
  }

  /** The first candidate entry is the one proposed, whatever follows it. */
  lemma {:induction false} CandidateCalAt(items: seq<CalendarEntry>, k: nat)
    requires k < |items| && IsCandidate(items[k])
    requires forall j :: 0 <= j < k ==> !IsCandidate(items[j])
    ensures CandidateCal(items) == Some(items[k].id)
    decreases k
  {
    if k > 0 {
      CandidateCalAt(items[1..], k - 1);
    }
  }

  /** No calendar is proposed exactly when no entry is primary or owned. */
  lemma {:induction false} CandidateCalNone(items: seq<CalendarEntry>)
    ensures CandidateCal(items).None? <==> forall i :: 0 <= i < |items| ==> !IsCandidate(items[i])
    decreases |items|
  {
    if items != [] {
      CandidateCalNone(items[1..]);
      if !IsCandidate(items[0]) {
        forall i | 0 <= i < |items| && i > 0 ensures items[i] == items[1..][i - 1] { }
      }
    }
  }

  /** An owned entry ahead of a primary one wins: the search does not prefer `primary`. */
  lemma OwnerBeatsLaterPrimary(items: seq<CalendarEntry>, i: nat, j: nat)
    requires i < j < |items|
    requires items[i].accessRole == "owner" && items[j].primary
    requires forall k :: 0 <= k < i ==> !IsCandidate(items[k])
    ensures CandidateCal(items) == Some(items[i].id)
  {
    CandidateCalAt(items, i);
  }

  /** Reference definition of the selected entry: the first entry whose id is `id`. */
  function SelectedCal(items: seq<CalendarEntry>, id: string): Option<CalendarEntry>
    decreases |items|
  {
    if items == [] then None
    else if items[0].id == id then Some(items[0])
    else SelectedCal(items[1..], id)
  }

  /** The selected entry carries the id asked for, and is the first such entry; None means no entry has it. */
  lemma {:induction false} SelectedCalSpec(items: seq<CalendarEntry>, id: string)
    ensures SelectedCal(items, id).None? <==> forall i :: 0 <= i < |items| ==> items[i].id != id
    ensures SelectedCal(items, id).Some? ==>
      exists k :: 0 <= k < |items| && SelectedCal(items, id).value == items[k] && items[k].id == id
               && forall j :: 0 <= j < k ==> items[j].id != id
    decreases |items|
  {
    if items != [] {
      SelectedCalSpec(items[1..], id);
      if items[0].id == id {
        assert SelectedCal(items, id).value == items[0];
      } else {
        forall i | 0 <= i < |items| && i > 0 ensures items[i] == items[1..][i - 1] { }
        if SelectedCal(items, id).Some? {
          var k :| 0 <= k < |items[1..]| && SelectedCal(items[1..], id).value == items[1..][k]
                   && items[1..][k].id == id && forall j :: 0 <= j < k ==> items[1..][j].id != id;
          assert SelectedCal(items, id).value == items[k + 1];
          assert forall j :: 0 <= j < k + 1 ==> items[j].id != id by {
            forall j | 0 <= j < k + 1 ensures items[j].id != id {
              if j > 0 { assert items[j] == items[1..][j - 1]; }
            }
          }
        }
      }
    }
  }

  /** The message posted when the selected calendar is not in the list. */
  function NotFoundMessage(id: string): string {
    "Sync Calendar \"" + id + "\" not found."
  }

  /** The calendar id a server setting selects: `setting ? setting.syncCalId || null : null`. */
  function SettingCalId(setting: Option<GDataCalSetting>): Option<string> {
    if setting.Some? && Truthy(setting.value.syncCalId) then setting.value.syncCalId else None
  }

  class CalendarSettingPanel {
    var calList: Option<seq<CalendarEntry>>   // cal_list_
    var calId: Option<string>                 // cal_id_
    var message: string                       // text of the .message element
    var syncChecked: bool                     // value of the sync checkbox
    var syncPanelShown: bool                  // the sync-calendar panel is shown
    var linkText: string                      // text of the calendar-name link
    var linkTarget: Option<string>            // Some(id): href is the calendar link of id; None: href is ''
    var statuses: seq<string>                 // messages posted to the status bar

    /** A calendar is selected: `cal_id_` is truthy. */
    predicate Selected()
      reads this
    {
      Truthy(calId)
    }

    constructor ()
      ensures calList == None && calId == None && statuses == []
    {
      calList := None;
      calId := None;
      message := "";
      syncChecked := false;
      syncPanelShown := false;
      linkText := "";
      linkTarget := None;
      statuses := [];
    }

    /** `findCandidateCal_`: the id of the first primary or owned calendar, or None. */
    method FindCandidateCal() returns (r: Option<string>)
      requires calList.Some?
      ensures r == CandidateCal(calList.value)
    {
      var items := calList.value;
      var i := 0;
      while i < |items|
        invariant 0 <= i <= |items|
        invariant CandidateCal(items[i..]) == CandidateCal(items)
      {
        assert items[i..][1..] == items[i + 1..];
        var cal := items[i];
        if cal.primary {
          return Some(cal.id);
        }
        if cal.accessRole == "owner" {
          return Some(cal.id);
        }
        i := i + 1;
      }
      return None;
    }

    /**
     * `getSelectedCalendar_`: None when no calendar is selected (the list is
     * then not read), otherwise the first entry with the selected id, or None.
     */
    method GetSelectedCalendar() returns (r: Option<CalendarEntry>)
      requires Selected() ==> calList.Some?
      ensures !Selected() ==> r == None
      ensures Selected() ==> r == SelectedCal(calList.value, calId.value)
    {
      if !Truthy(calId) {
        return None;
      }
      var items := calList.value;
      var i := 0;
      while i < |items|
        invariant 0 <= i <= |items|
        invariant SelectedCal(items[i..], calId.value) == SelectedCal(items, calId.value)
      {
        assert items[i..][1..] == items[i + 1..];
        if items[i].id == calId.value {
          return Some(items[i]);
        }
        i := i + 1;
      }
      return None;
    }

    /**
     * `refresh_`: derives the whole view from the selected id. The checkbox
     * and the sync panel show whether a calendar is selected; a found entry
     * gives the link its summary (or "My Calendar") and target; a missing one
     * gives the not-found message, also posted as a status.
     */
    method RefreshView()
      requires Selected() ==> calList.Some?
      modifies this`message, this`syncPanelShown, this`linkText, this`linkTarget,
               this`syncChecked, this`statuses
      ensures syncChecked == Selected() && syncPanelShown == Selected()
      ensures !Selected() ==>
        message == "" && linkText == "" && linkTarget == None && statuses == old(statuses)
      ensures Selected() && SelectedCal(calList.value, calId.value).Some? ==>
        var cal := SelectedCal(calList.value, calId.value).value;
        message == "" && linkText == Or(cal.summary, DEFAULT_CALENDAR_NAME)
        && linkTarget == calId && statuses == old(statuses)
      ensures Selected() && SelectedCal(calList.value, calId.value).None? ==>
        message == NotFoundMessage(calId.value) && statuses == old(statuses) + [message]
        && linkText == calId.value && linkTarget == None
    {
      message := "";
      syncPanelShown := Truthy(calId);
      linkText := Or(calId, "");
      linkTarget := None;
      syncChecked := Truthy(calId);
      if Truthy(calId) {
        var cal := GetSelectedCalendar();
        if cal.Some? {
          linkTarget := calId;
          linkText := Or(cal.value.summary, DEFAULT_CALENDAR_NAME);
        } else {
          var msg := NotFoundMessage(calId.value);
          message := msg;
          statuses := statuses + [msg];
        }
      }
    }

    /** `refresh`, synchronous part: the message line says the data is loading. */
    method BeginRefresh()
      modifies this`message
      ensures message == LOADING_MESSAGE
    {
      message := LOADING_MESSAGE;
    }

    /**
     * `refresh`, when the server setting arrives: the selected id becomes its
     * `syncCalId`, or None when the setting or the field is absent or empty.
     * A calendar-event update is requested exactly when an id is selected.
     */
    method OnSettingReply(setting: Option<GDataCalSetting>) returns (requestsEventUpdate: bool)
      modifies this`calId
      ensures calId == SettingCalId(setting)
      ensures calId.Some? ==> calId == setting.value.syncCalId && calId.value != ""
      ensures requestsEventUpdate <==> calId.Some?
    {
      calId := if setting.Some? then (if Truthy(setting.value.syncCalId) then setting.value.syncCalId else None) else None;
      requestsEventUpdate := Truthy(calId);
    }

    /** `refresh`, when the calendar list arrives: it is kept and the view is refreshed. */
    method OnCalendarList(json: seq<CalendarEntry>)
      modifies this
      ensures calList == Some(json) && calId == old(calId)
      ensures syncChecked == Selected() && syncPanelShown == Selected()
      ensures !Selected() ==>
        message == "" && linkText == "" && linkTarget == None && statuses == old(statuses)
      ensures Selected() && SelectedCal(json, calId.value).Some? ==>
        message == "" && linkText == Or(SelectedCal(json, calId.value).value.summary, DEFAULT_CALENDAR_NAME)
        && linkTarget == calId && statuses == old(statuses)
      ensures Selected() && SelectedCal(json, calId.value).None? ==>
        message == NotFoundMessage(calId.value) && statuses == old(statuses) + [message]
        && linkText == calId.value && linkTarget == None
    {
      calList := Some(json);
      RefreshView();
    }

    /** `setSync`: only `true` opens the calendar selection dialog; nothing else changes. */
    method SetSync(val: bool) returns (opensDialog: bool)
      ensures opensDialog == val
    {
      opensDialog := false;
      if val {
        opensDialog := true;
      }
    }

    /**
     * `showCalSelectDialog`, when the dialog settles with a choice: the choice
     * becomes the selected id and a full refresh starts.
     */
    method OnDialogResult(result: Option<string>)
      modifies this`calId, this`message
      ensures calId == result && message == LOADING_MESSAGE
    {
      calId := result;
      BeginRefresh();
    }
  }
}

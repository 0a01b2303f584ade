/**
 * The SugarCRM application inside Gmail (ydn.crm.inj.SugarCrmApp): it follows
 * the SugarCRM instance the background page reports, replacing the
 * attach-button provider when the instance's domain changes and handing the
 * new model to the sidebar, the message-heading injector and the context
 * panel.
 *
 * Attach-button providers are opaque objects; each one is identified by the
 * serial number it was created with, and whether it is listened to or
 * disposed is recorded as sets of those numbers.
 */
module SugarCrm {
  import opened Js
  import opened UserSettings

  /** The SugarCRM details a GET_SUGAR request answers with; only the domain is examined. */
  datatype Details = Details(domain: string, info: nat)

  /** The model (GDataSugar) built from the details and the user's login e-mail. */
  datatype Sugar = Sugar(details: Details, account: string)

  /** An archiver over a model and the provider it was created with. */
  datatype Archiver = Archiver(sugar: Sugar, attacher: nat)

  const DOMAIN_CHANGE_STATUS := "Updating SugarCRM instance changes."

  class SugarCrmApp {
    var domain: string                  // domain_
    var attacher: Option<nat>           // attacher_
    var providerCount: nat              // providers created so far; the next one gets this number
    var listening: set<nat>             // providers whose VIEW_RECORD events are listened to
    var disposed: set<nat>              // providers disposed
    var sidebarSugar: Option<Details>   // what sidebar_panel.setSugarCrm last received
    var sidebarVisible: Option<bool>    // the last sidebar_panel.setVisible, None before any
    var headingSugar: Option<Archiver>  // what heading_injector_.setSugar last received
    var contextSugar: Option<Sugar>     // what context_panel.setSugarCrm last received
    var sugarRequests: nat              // GET_SUGAR requests sent (updateSugarPanels_)
    var shownRecords: seq<(string, string)>  // sidebar_panel.showRecord(module, id) calls
    var statuses: seq<string>           // messages posted to the status bar
    var sidebarAdded: bool              // the sidebar panel was added to the HUD
    var statusListened: bool            // login and logout events are listened to

    /**
     * At most one provider is listened to, and it is the current `attacher_`;
     * no disposed provider is listened to; only created providers are
     * referred to.
     */
    ghost predicate Valid()
      reads this
    {
      (forall p :: p in listening ==> attacher == Some(p))
      && listening !! disposed
      && (forall p :: p in listening ==> p < providerCount)
      && (forall p :: p in disposed ==> p < providerCount)
      && (attacher.Some? ==> attacher.value < providerCount)
    }

    /** The constructor: no domain, no provider, nothing handed to the panels yet. */
    constructor ()
      ensures Valid()
      ensures domain == "" && attacher == None && providerCount == 0 && listening == {} && disposed == {}
      ensures sidebarSugar == None && headingSugar == None && contextSugar == None && sidebarVisible == None
      ensures sugarRequests == 0 && shownRecords == [] && statuses == [] && !sidebarAdded && !statusListened
    {
      domain := "";
      attacher := None;
      providerCount := 0;
      listening := {};
      disposed := {};
      sidebarSugar := None;
      sidebarVisible := None;
      headingSugar := None;
      contextSugar := None;
      sugarRequests := 0;
      shownRecords := [];
      statuses := [];
      sidebarAdded := false;
      statusListened := false;
    }

    /** Stop listening to the current provider, if any, and dispose it; `attacher_` keeps pointing at it. */
    method DropAttacher()
      requires Valid()
      modifies this`listening, this`disposed
      ensures Valid() && listening == {}
      ensures disposed == old(disposed) + (if attacher.Some? then {attacher.value} else {})
    {
      if attacher.Some? {
        listening := listening - {attacher.value};
        disposed := disposed + {attacher.value};
      }
    }

    /**
     * `updateSugarCrm_`, the callback of the GET_SUGAR request. Details for
     * the current domain change nothing. Details for another domain: the
     * domain is recorded, the sidebar gets the details, the old provider is
     * unlistened and disposed, a new one is created and listened to, and the
     * heading injector and the context panel get an archiver and a model built
     * from these details. No details: the domain becomes '', the three panels
     * are cleared and the provider is unlistened and disposed, while
     * `attacher_` still names it.
     */
    method UpdateSugarCrm(details: Option<Details>, loginEmail: string)
      requires Valid()
      modifies this`domain, this`attacher, this`providerCount, this`listening, this`disposed,
               this`sidebarSugar, this`headingSugar, this`contextSugar
      ensures Valid()
      ensures details.Some? && details.value.domain == old(domain) ==>
        domain == old(domain) && attacher == old(attacher) && providerCount == old(providerCount)
        && listening == old(listening) && disposed == old(disposed) && sidebarSugar == old(sidebarSugar)
        && headingSugar == old(headingSugar) && contextSugar == old(contextSugar)
      ensures details.Some? && details.value.domain != old(domain) ==>
        var sugar := Sugar(details.value, loginEmail);
        domain == details.value.domain && sidebarSugar == details
        && providerCount == old(providerCount) + 1 && attacher == Some(old(providerCount))
        && listening == {old(providerCount)}
        && disposed == old(disposed) + (if old(attacher).Some? then {old(attacher).value} else {})
        && headingSugar == Some(Archiver(sugar, old(providerCount))) && contextSugar == Some(sugar)
      ensures details.None? ==>
        domain == "" && contextSugar == None && sidebarSugar == None && headingSugar == None
        && attacher == old(attacher) && providerCount == old(providerCount) && listening == {}
        && disposed == old(disposed) + (if old(attacher).Some? then {old(attacher).value} else {})
    {
      if details.Some? {
        if details.value.domain == domain {
          return;
        }
        domain := details.value.domain;
        sidebarSugar := details;
        var sugar := Sugar(details.value, loginEmail);
        DropAttacher();
        assert providerCount !in disposed;
        attacher := Some(providerCount);
        providerCount := providerCount + 1;
        listening := listening + {attacher.value};
        headingSugar := Some(Archiver(sugar, attacher.value));
        contextSugar := Some(sugar);
      } else {
        domain := "";
        contextSugar := None;
        sidebarSugar := None;
        headingSugar := None;
        DropAttacher();
      }
    }

    /** `updateSugarPanels_`, request side: one more GET_SUGAR request. */
    method UpdateSugarPanels()
      modifies this`sugarRequests
      ensures sugarRequests == old(sugarRequests) + 1
    {
      sugarRequests := sugarRequests + 1;
    }

    /**
     * `refresh_`: a valid login shows the sidebar; otherwise the heading
     * injector is cleared and the sidebar hidden. Either way the SugarCRM
     * details are requested again.
     */
    method Refresh(us: UserSetting)
      modifies this`sidebarVisible, this`headingSugar, this`sugarRequests
      ensures sidebarVisible == Some(us.validLogin) && sugarRequests == old(sugarRequests) + 1
      ensures headingSugar == (if us.validLogin then old(headingSugar) else None)
    {
      if us.validLogin {
        sidebarVisible := Some(true);
        UpdateSugarPanels();
      } else {
        headingSugar := None;
        sidebarVisible := Some(false);
        UpdateSugarPanels();
      }
    }

    /** `init`: the sidebar is added and login events are listened to; the refresh runs now only when the setting is ready. */
    method Init(us: UserSetting)
      modifies this`sidebarAdded, this`statusListened, this`sidebarVisible, this`headingSugar, this`sugarRequests
      ensures sidebarAdded && statusListened
      ensures !us.ready ==>
        sidebarVisible == old(sidebarVisible) && headingSugar == old(headingSugar) && sugarRequests == old(sugarRequests)
      ensures us.ready ==>
        sidebarVisible == Some(us.validLogin) && sugarRequests == old(sugarRequests) + 1
        && headingSugar == (if us.validLogin then old(headingSugar) else None)
    {
      sidebarAdded := true;
      statusListened := true;
      if us.ready {
        Refresh(us);
      }
    }

    /** `onUserStatusChange`: every login or logout event refreshes. */
    method OnUserStatusChange(us: UserSetting)
      modifies this`sidebarVisible, this`headingSugar, this`sugarRequests
      ensures sidebarVisible == Some(us.validLogin) && sugarRequests == old(sugarRequests) + 1
      ensures headingSugar == (if us.validLogin then old(headingSugar) else None)
    {
      Refresh(us);
    }

    /** `handleSugarDomainChanges`: a status is posted and the details are requested again. */
    method HandleSugarDomainChanges()
      modifies this`statuses, this`sugarRequests
      ensures statuses == old(statuses) + [DOMAIN_CHANGE_STATUS] && sugarRequests == old(sugarRequests) + 1
    {
      statuses := statuses + [DOMAIN_CHANGE_STATUS];
      UpdateSugarPanels();
    }

    /** `onViewRecord_`: the sidebar is asked to show exactly the event's module and id. */
    method OnViewRecord(moduleName: string, id: string)
      modifies this`shownRecords
      ensures shownRecords == old(shownRecords) + [(moduleName, id)]
    {
      shownRecords := shownRecords + [(moduleName, id)];
    }
  }
}

/**
 * The AngelList widget (ydn.social.ui.AngelList): on redraw it shows what
 * the contact's profile already knows, then fetches the AngelList detail,
 * marking its container with 'working' while the fetch runs and 'exist',
 * 'alert' or 'error' once it settles. The detail's places and roles are
 * rendered as comma-separated texts.
 */
module Angel {
  import opened Js
  import opened Channel

  const WORKING := "working"
  const EXIST := "exist"
  const EMPTY := "empty"
  const ALERT := "alert"
  const ERROR := "error"
  const BUTTON_TITLE := "AngelList"
  const GRANT_TITLE := "Click to grant access to AngelList API"
  const FAIL_PREFIX := "Fetching AngelList fail: "
  const SEPARATOR := ", "

  /** One entry of an AngelList profile's `locations`. */
  datatype Place = Place(value: Option<string>)

  /** One entry of an AngelList profile's `roles`. */
  datatype Role = Role(displayName: Option<string>)

  /** The contact's profile as the widget's model already knows it (ydn.social.Profile). */
  datatype KnownProfile = KnownProfile(
    screenName: string,
    profileUrl: Option<string>,
    photoUrl: Option<string>,
    bio: Option<string>,
    followers: Option<nat>,
    following: Option<nat>
  )

  /** An AngelList profile as fetched; `followerCount` is the text the count renders as. */
  datatype AngelProfile = AngelProfile(
    name: string,
    angellistUrl: Option<string>,
    bio: Option<string>,
    followerCount: string,
    locations: Option<seq<Place>>,
    roles: Option<seq<Role>>
  )

  /** The detail rendered from the known profile; a None link or image has no `href`/`src`. */
  datatype KnownView = KnownView(
    nameText: string,
    nameHref: Option<string>,
    logoSrc: Option<string>,
    description: string,
    followersText: string,
    followingText: string
  )

  /** The detail rendered from a fetched profile; a None text is the template's, left untouched. */
  datatype AngelView = AngelView(
    nameText: string,
    nameHref: Option<string>,
    description: string,
    followersText: string,
    locationText: Option<string>,
    rolesText: Option<string>
  )

  /** The content of the detail element. */
  datatype DetailContent = EmptyDetail | KnownDetail(known: KnownView) | FetchedDetail(fetched: AngelView)

  /** The widget's model: the profile it is about, if any. */
  datatype AngelModel = AngelModel(profile: Option<KnownProfile>)

  // ---------------------------------------------------------------------------
  // Places and roles

  /** Reference definition of the places pushed by `renderPlaceLived_`: the truthy values, in order. */
  function TruthyValues(places: seq<Place>): seq<string>
    decreases |places|
  {
    if places == [] then []
    else
      var last := places[|places| - 1];
      TruthyValues(places[..|places| - 1]) + (if Truthy(last.value) then [last.value.value] else [])
  }

  /** The kept values are the non-empty ones, in order: filtering distributes over concatenation, keeps every truthy value and no empty one. */
  lemma {:induction false} TruthyValuesSpec(a: seq<Place>, b: seq<Place>)
    ensures TruthyValues(a + b) == TruthyValues(a) + TruthyValues(b)
    ensures |TruthyValues(b)| <= |b|
    ensures forall i :: 0 <= i < |TruthyValues(b)| ==> TruthyValues(b)[i] != ""
    ensures forall i :: 0 <= i < |b| && Truthy(b[i].value) ==> b[i].value.value in TruthyValues(b)
    decreases |b|
  {
    if b == [] {
      assert a + b == a;
    } else {
      var b' := b[..|b| - 1];
      assert (a + b)[..|a + b| - 1] == a + b';
      TruthyValuesSpec(a, b');
      assert forall i :: 0 <= i < |b'| ==> b[i] == b'[i];
    }
  }

  /** The text of `renderPlaceLived_` for a list of places. */
  function PlacesText(places: seq<Place>): string {
    Join(TruthyValues(places), SEPARATOR)
  }

  /** `renderRoles_`: None (element untouched) for no roles, else every display name in order joined by ', ' (a missing one joins as ''). */
  function RenderRoles(roles: Option<seq<Role>>): Option<string> {
    if roles.None? then None
    else Some(Join(seq(|roles.value|, i requires 0 <= i < |roles.value| => Or(roles.value[i].displayName, "")), SEPARATOR))
  }

  /** Roles are not filtered: with comma-free names the text has one separator per pair of neighbouring roles. */
  lemma RenderRolesSpec(roles: seq<Role>)
    requires forall i :: 0 <= i < |roles| ==> Count(Or(roles[i].displayName, ""), ',') == 0
    ensures RenderRoles(Some(roles)).Some?
    ensures Count(RenderRoles(Some(roles)).value, ',') == if |roles| == 0 then 0 else |roles| - 1
  {
    var names := seq(|roles|, i requires 0 <= i < |roles| => Or(roles[i].displayName, ""));
    JoinCommaCount(names);
  }

  /** Places are filtered: with comma-free values the text has one separator per pair of neighbouring truthy values. */
  lemma PlacesTextSpec(places: seq<Place>)
    requires forall i :: 0 <= i < |places| && places[i].value.Some? ==> Count(places[i].value.value, ',') == 0
    ensures Count(PlacesText(places), ',') ==
      if |TruthyValues(places)| == 0 then 0 else |TruthyValues(places)| - 1
  {
    TruthyValuesSpec([], places);
    assert [] + places == places;
    forall k | 0 <= k < |TruthyValues(places)| ensures Count(TruthyValues(places)[k], ',') == 0 {
      TruthyValuesComma(places, k);
    }
    JoinCommaCount(TruthyValues(places));
  }

  /** When no place's value holds a comma, no kept value holds one either. */
  lemma {:induction false} TruthyValuesComma(places: seq<Place>, k: nat)
    requires forall i :: 0 <= i < |places| && places[i].value.Some? ==> Count(places[i].value.value, ',') == 0
    requires k < |TruthyValues(places)|
    ensures Count(TruthyValues(places)[k], ',') == 0
    decreases |places|
  {
    var prefix := places[..|places| - 1];
    if k < |TruthyValues(prefix)| {
      assert forall i :: 0 <= i < |prefix| ==> prefix[i] == places[i];
      TruthyValuesComma(prefix, k);
    }
  }

  /** `renderPlaceLived_`: None (element untouched) for no places, else the truthy values pushed in order and joined by ', '. */
  method RenderPlaceLived(places: Option<seq<Place>>) returns (text: Option<string>)
    ensures places.None? ==> text == None
    ensures places.Some? ==> text == Some(PlacesText(places.value))
  {
    if places.None? {
      return None;
    }
    var ps := places.value;
    var place: seq<string> := [];
    var i := 0;
    while i < |ps|
      invariant 0 <= i <= |ps|
      invariant place == TruthyValues(ps[..i])
    {
      assert ps[..i + 1][..i] == ps[..i];
      if Truthy(ps[i].value) {
        place := place + [ps[i].value.value];
      }
      i := i + 1;
    }
    assert ps[..i] == ps;
    text := Some(Join(place, SEPARATOR));
  }

  // ---------------------------------------------------------------------------
  // Rendered details

  /** A count shown by `refreshByFC_`: '' for a missing or zero count. */
  function CountText(n: Option<nat>): string {
    if n.Some? && n.value != 0 then Decimal(n.value) else ""
  }

  /** The detail `refreshByFC_` renders from the known profile. */
  function KnownViewOf(p: KnownProfile): KnownView {
    KnownView(
      p.screenName,
      if Truthy(p.profileUrl) then p.profileUrl else None,
      if Truthy(p.photoUrl) then p.photoUrl else None,
      Or(p.bio, ""),
      CountText(p.followers),
      CountText(p.following))
  }

  /** Without a URL or photo the link and image lose `href`/`src`; missing bio and zero or missing counts show ''. */
  lemma KnownViewSpec(p: KnownProfile)
    ensures KnownViewOf(p).nameHref.None? <==> !Truthy(p.profileUrl)
    ensures KnownViewOf(p).logoSrc.None? <==> !Truthy(p.photoUrl)
    ensures p.bio.None? ==> KnownViewOf(p).description == ""
    ensures KnownViewOf(p).followersText == "" <==> p.followers.None? || p.followers.value == 0
    ensures KnownViewOf(p).followingText == "" <==> p.following.None? || p.following.value == 0
  {
  }

  /** The detail `renderAngelProfile` renders from a fetched profile. */
  function AngelViewOf(p: AngelProfile): AngelView {
    AngelView(
      p.name,
      p.angellistUrl,
      Or(p.bio, ""),
      p.followerCount,
      if p.locations.None? then None else Some(PlacesText(p.locations.value)),
      RenderRoles(p.roles))
  }

  /** The classes a failed detail fetch leaves: 'working' gone, then 'alert' (host permission) or 'error'; a null error stops after removing 'working'. */
  function FailedClasses(classes: set<string>, e: ErrorValue): set<string> {
    (classes - {WORKING}) + (match e
      case NullError => {}
      case HostPermission => {ALERT}
      case OtherError(_) => {ERROR})
  }

  /** A failure with an error adds exactly one of 'alert' and 'error'; a null error adds neither. */
  lemma FailureOutcome(classes: set<string>, e: ErrorValue)
    requires ALERT !in classes && ERROR !in classes
    ensures WORKING !in FailedClasses(classes, e)
    ensures ALERT in FailedClasses(classes, e) <==> e.HostPermission?
    ensures ERROR in FailedClasses(classes, e) <==> e.OtherError?
    ensures e.NullError? ==> FailedClasses(classes, e) == classes - {WORKING}
  {
  }

  class AngelWidget {
    var model: Option<AngelModel>       // getModel()
    var containerClasses: set<string>   // getContainer().classList
    var containerShown: bool            // the container is shown
    var detail: DetailContent           // content of the detail element
    var detailShown: bool               // the detail element is shown
    var buttonTitle: Option<string>     // title attribute of the button
    var statuses: seq<string>           // messages posted to the status bar

    constructor (model: Option<AngelModel>)
      ensures this.model == model && containerClasses == {} && detail == EmptyDetail && statuses == []
    {
      this.model := model;
      containerClasses := {};
      containerShown := false;
      detail := EmptyDetail;
      detailShown := false;
      buttonTitle := None;
      statuses := [];
    }

    /** `refreshByFC_`: the detail is emptied, filled from the known profile and shown. */
    method RefreshByFC(p: KnownProfile)
      modifies this`detail, this`detailShown
      ensures detail == KnownDetail(KnownViewOf(p)) && detailShown
    {
      detail := EmptyDetail;
      detail := KnownDetail(KnownViewOf(p));
      detailShown := true;
    }

    /**
     * `fetchDetailAndRefresh_`, synchronous part: nothing without a model;
     * otherwise 'working' is added and 'exist' removed, and the fetch starts
     * when the model holds a profile. With a model but no profile the source
     * throws on the null profile right after changing the classes: no fetch
     * starts, so nothing ever removes 'working'.
     */
    method FetchDetailAndRefresh() returns (started: bool)
      modifies this`containerClasses
      ensures started == (model.Some? && model.value.profile.Some?)
      ensures containerClasses == (if model.Some? then old(containerClasses) + {WORKING} - {EXIST} else old(containerClasses))
    {
      if model.None? {
        return false;
      }
      containerClasses := containerClasses + {WORKING};
      containerClasses := containerClasses - {EXIST};
      started := model.value.profile.Some?;
    }

    /**
     * `fetchDetailAndRefresh_`, once the fetch settles: 'working' is removed;
     * a non-null detail re-adds 'exist' and is rendered. A failure hides the
     * detail and adds 'alert' and the grant-access title (host permission) or
     * a status and 'error'; a null error stops right after removing 'working'.
     */
    method CompleteFetchDetail(reply: Reply<Option<AngelProfile>>)
      modifies this`containerClasses, this`detail, this`detailShown, this`buttonTitle, this`statuses
      ensures reply.Succeeded? && reply.value.None? ==>
        containerClasses == old(containerClasses) - {WORKING}
        && detail == old(detail) && detailShown == old(detailShown)
        && buttonTitle == old(buttonTitle) && statuses == old(statuses)
      ensures reply.Succeeded? && reply.value.Some? ==>
        containerClasses == old(containerClasses) - {WORKING} + {EXIST}
        && detail == FetchedDetail(AngelViewOf(reply.value.value)) && detailShown
        && buttonTitle == old(buttonTitle) && statuses == old(statuses)
      ensures reply.Failed? ==>
        containerClasses == FailedClasses(old(containerClasses), reply.error)
        && detail == old(detail) && !detailShown
        && buttonTitle == (if reply.error.HostPermission? then Some(GRANT_TITLE) else old(buttonTitle))
        && statuses == old(statuses) + (if reply.error.OtherError? then [FAIL_PREFIX + reply.error.text] else [])
    {
      if reply.Succeeded? {
        containerClasses := containerClasses - {WORKING};
        if reply.value.None? {
          return;
        }
        containerClasses := containerClasses + {EXIST};
        detail := FetchedDetail(AngelViewOf(reply.value.value));
        detailShown := true;
      } else {
        detailShown := false;
        containerClasses := containerClasses - {WORKING};
        match reply.error
        case NullError =>
        case HostPermission =>
          containerClasses := containerClasses + {ALERT};
          buttonTitle := Some(GRANT_TITLE);
        case OtherError(text) =>
          statuses := statuses + [FAIL_PREFIX + ErrorText(reply.error)];
          containerClasses := containerClasses + {ERROR};
      }
    }

    /**
     * `redraw`, with `baseClasses` the container classes `resetBaseClass`
     * leaves: the button title is 'AngelList' and the detail is emptied. With
     * a profile the container and detail are shown, the known profile is
     * rendered and the fetch starts, so 'exist' is added and at once replaced
     * by 'working'; without one the container and detail are hidden and
     * 'empty' is added.
     */
    method Redraw(baseClasses: set<string>) returns (fetchStarted: bool)
      modifies this`containerClasses, this`containerShown, this`detail, this`detailShown, this`buttonTitle
      ensures buttonTitle == Some(BUTTON_TITLE)
      ensures fetchStarted <==> model.Some? && model.value.profile.Some?
      ensures fetchStarted ==>
        containerShown && detailShown && detail == KnownDetail(KnownViewOf(model.value.profile.value))
        && containerClasses == baseClasses + {WORKING} - {EXIST}
      ensures !fetchStarted ==>
        !containerShown && !detailShown && detail == EmptyDetail && containerClasses == baseClasses + {EMPTY}
    {
      containerClasses := baseClasses;
      buttonTitle := Some(BUTTON_TITLE);
      detail := EmptyDetail;
      var profile := if model.Some? then model.value.profile else None;
      fetchStarted := false;
      if profile.Some? {
        containerShown := true;
        containerClasses := containerClasses + {EXIST};
        detailShown := true;
        RefreshByFC(profile.value);
        fetchStarted := FetchDetailAndRefresh();
      } else {
        containerShown := false;
        detailShown := false;
        containerClasses := containerClasses + {EMPTY};
      }
    }

    /** `onButtonClicked_`: the button starts a fetch (the source throws when the model has no profile). */
    method OnButtonClicked() returns (started: bool)
      modifies this`containerClasses
      ensures started == (model.Some? && model.value.profile.Some?)
      ensures containerClasses == (if model.Some? then old(containerClasses) + {WORKING} - {EXIST} else old(containerClasses))
    {
      started := FetchDetailAndRefresh();
    }
  }
}

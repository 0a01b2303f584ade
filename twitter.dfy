/**
 * The Twitter widget (ydn.social.ui.Twitter): it fetches the profile detail
 * and then the timeline of the person in view, marking its container with
 * 'working' while a fetch runs and 'exist', 'alert' or 'error' once it
 * settles, and renders the detail and the tweets into their elements.
 */
module Twitter {
  import opened Js
  import opened Channel

  const WORKING := "working"
  const EXIST := "exist"
  const ALERT := "alert"
  const ERROR := "error"
  const GRANT_TITLE := "Click to grant access to Twitter API"
  const FAIL_PREFIX := "Fetching twitter fail: "

  /**
   * A profile as the users/show API returns it; `followers` and `friends` are
   * the texts the counts render as.
   */
  datatype TwitterProfile = TwitterProfile(
    screenName: string,
    url: Option<string>,
    description: Option<string>,
    imageUrl: Option<string>,
    followers: string,
    friends: string,
    location: Option<string>
  )

  /** The location line of a rendered profile or tweet. */
  datatype LocationView = LocationText(text: string) | LocationHidden | LocationUnset

  /** The rendered profile detail. */
  datatype DetailView = DetailView(
    nameText: string,
    nameHref: Option<string>,
    description: string,
    logoSrc: Option<string>,
    followersText: string,
    followingText: string,
    location: LocationView
  )

  /** A tweet of the user_timeline API; `createdAt` is `new Date(created_at).getTime()`, None for NaN. */
  datatype Tweet = Tweet(text: string, location: Option<string>, createdAt: Option<int>)

  /** A rendered tweet; `time` is the timestamp its time line was formatted from, if it was set. */
  datatype TweetItem = TweetItem(text: string, location: LocationView, time: Option<int>)

  /** The model the widget shows. */
  datatype SocialModel = SocialModel(hasProfile: bool)

  /** A location is written out only when present and not 'Global'. */
  predicate ShowsLocation(location: Option<string>) {
    Truthy(location) && location.value != "Global"
  }

  /** The detail `renderProfileDetail` renders for a profile. */
  function ProfileView(p: TwitterProfile): DetailView {
    DetailView(
      "@" + p.screenName,
      p.url,
      Or(p.description, ""),
      p.imageUrl,
      p.followers,
      p.friends,
      if ShowsLocation(p.location) then LocationText(p.location.value) else LocationHidden)
  }

  /** The rendered detail names the user by '@' and the screen name, and shows the location only when it is meaningful. */
  lemma ProfileViewSpec(p: TwitterProfile)
    ensures ProfileView(p).nameText == "@" + p.screenName
    ensures ProfileView(p).description == (if Truthy(p.description) then p.description.value else "")
    ensures ProfileView(p).location != LocationUnset
    ensures ProfileView(p).location.LocationText? <==> p.location.Some? && p.location.value != "" && p.location.value != "Global"
    ensures ProfileView(p).location.LocationText? ==> ProfileView(p).location.text == p.location.value
  {
  }

  /** One list entry of `renderTweet`: location only when meaningful, time only for a positive timestamp. */
  function TweetItemOf(t: Tweet): TweetItem {
    TweetItem(
      t.text,
      if ShowsLocation(t.location) then LocationText(t.location.value) else LocationUnset,
      if t.createdAt.Some? && t.createdAt.value > 0 then t.createdAt else None)
  }

  /** Reference definition of the rendered list: the entries of the tweets, in order. */
  function TweetItems(tweets: seq<Tweet>): seq<TweetItem>
    decreases |tweets|
  {
    if tweets == [] then [] else TweetItems(tweets[..|tweets| - 1]) + [TweetItemOf(tweets[|tweets| - 1])]
  }

  /** Exactly one entry per tweet, in input order; a time only for a positive timestamp. */
  lemma {:induction false} TweetItemsSpec(tweets: seq<Tweet>)
    ensures |TweetItems(tweets)| == |tweets|
    ensures forall i :: 0 <= i < |tweets| ==> TweetItems(tweets)[i] == TweetItemOf(tweets[i])
    ensures forall i :: 0 <= i < |tweets| ==>
      (TweetItems(tweets)[i].time.Some? <==> tweets[i].createdAt.Some? && tweets[i].createdAt.value > 0)
    decreases |tweets|
  {
    if tweets != [] {
      var prefix := tweets[..|tweets| - 1];
      TweetItemsSpec(prefix);
      assert forall i :: 0 <= i < |prefix| ==> tweets[i] == prefix[i];
    }
  }

  /** Rendering a list after another renders their entries one after the other. */
  lemma {:induction false} TweetItemsAppend(a: seq<Tweet>, b: seq<Tweet>)
    ensures TweetItems(a + b) == TweetItems(a) + TweetItems(b)
    decreases |b|
  {
    if b == [] {
      assert a + b == a;
    } else {
      var b' := b[..|b| - 1];
      assert (a + b)[..|a + b| - 1] == a + b';
      TweetItemsAppend(a, b');
    }
  }

  /** The classes after a fetch fails: 'working' gone, and 'alert' for a host-permission error or 'error' otherwise. */
  function FailedClasses(classes: set<string>, e: ErrorValue): set<string> {
    (classes - {WORKING}) + (if e.HostPermission? then {ALERT} else {ERROR})
  }

  /** The status a failed fetch posts, if any: none for a host-permission error. */
  function FailStatus(e: ErrorValue): seq<string> {
    if e.HostPermission? then [] else [FAIL_PREFIX + ErrorText(e)]
  }

  /** A failure adds exactly one of 'alert' and 'error', the one its error calls for, and posts a status only with 'error'. */
  lemma FailureOutcome(classes: set<string>, e: ErrorValue)
    requires ALERT !in classes && ERROR !in classes
    ensures WORKING !in FailedClasses(classes, e)
    ensures (ALERT in FailedClasses(classes, e)) != (ERROR in FailedClasses(classes, e))
    ensures ALERT in FailedClasses(classes, e) <==> e.HostPermission?
    ensures |FailStatus(e)| == (if ERROR in FailedClasses(classes, e) then 1 else 0)
  {
  }

  class TwitterWidget {
    var model: Option<SocialModel>      // getModel()
    var hasTweetsElement: bool          // the container holds a '.tweets' list
    var containerClasses: set<string>   // getContainer().classList
    var detail: Option<DetailView>      // content of the detail element, None while empty
    var detailShown: bool               // the detail element is shown
    var tweetList: seq<TweetItem>       // entries of the '.tweets' list
    var buttonTitle: Option<string>     // title attribute of the button
    var statuses: seq<string>           // messages posted to the status bar

    constructor (model: Option<SocialModel>, hasTweetsElement: bool)
      ensures this.model == model && this.hasTweetsElement == hasTweetsElement
      ensures containerClasses == {} && detail == None && tweetList == [] && statuses == []
    {
      this.model := model;
      this.hasTweetsElement := hasTweetsElement;
      containerClasses := {};
      detail := None;
      detailShown := false;
      tweetList := [];
      buttonTitle := None;
      statuses := [];
    }

    /** `renderProfileDetail`: the element is emptied, filled from the profile and shown. */
    method RenderProfileDetail(p: TwitterProfile)
      modifies this`detail, this`detailShown
      ensures detail == Some(ProfileView(p)) && detailShown
    {
      detail := None;
      detail := Some(ProfileView(p));
      detailShown := true;
    }

    /** `renderTweet`: the list is emptied, then one entry per tweet is appended in order. */
    method RenderTweet(tweets: seq<Tweet>)
      modifies this`tweetList
      ensures tweetList == TweetItems(tweets)
    {
      tweetList := [];
      var i := 0;
      while i < |tweets|
        invariant 0 <= i <= |tweets|
        invariant tweetList == TweetItems(tweets[..i])
      {
        assert tweets[..i + 1][..i] == tweets[..i];
        tweetList := tweetList + [TweetItemOf(tweets[i])];
        i := i + 1;
      }
      assert tweets[..i] == tweets;
    }

    /**
     * `refreshTweet_`, synchronous part: without a '.tweets' list it settles
     * at once with null and changes nothing; otherwise 'working' is added and
     * the timeline fetch starts.
     */
    method BeginRefreshTweet() returns (started: bool)
      modifies this`containerClasses
      ensures started == hasTweetsElement
      ensures containerClasses == (if started then old(containerClasses) + {WORKING} else old(containerClasses))
    {
      if !hasTweetsElement {
        return false;
      }
      containerClasses := containerClasses + {WORKING};
      return true;
    }

    /**
     * `refreshTweet_`, once the timeline fetch settles: 'working' is removed;
     * a non-null timeline adds 'exist' and is rendered; a failure adds 'alert'
     * and the grant-access title for a host-permission error, or 'error' and
     * a status otherwise.
     */
    method CompleteRefreshTweet(reply: Reply<Option<seq<Tweet>>>)
      modifies this`containerClasses, this`tweetList, this`buttonTitle, this`statuses
      ensures reply.Succeeded? && reply.value.None? ==>
        containerClasses == old(containerClasses) - {WORKING}
        && tweetList == old(tweetList) && buttonTitle == old(buttonTitle) && statuses == old(statuses)
      ensures reply.Succeeded? && reply.value.Some? ==>
        containerClasses == old(containerClasses) - {WORKING} + {EXIST}
        && tweetList == TweetItems(reply.value.value) && buttonTitle == old(buttonTitle) && statuses == old(statuses)
      ensures reply.Failed? ==>
        containerClasses == FailedClasses(old(containerClasses), reply.error)
        && statuses == old(statuses) + FailStatus(reply.error) && tweetList == old(tweetList)
        && buttonTitle == (if reply.error.HostPermission? then Some(GRANT_TITLE) else old(buttonTitle))
    {
      if reply.Succeeded? {
        containerClasses := containerClasses - {WORKING};
        if reply.value.None? {
          return;
        }
        containerClasses := containerClasses + {EXIST};
        RenderTweet(reply.value.value);
      } else {
        containerClasses := containerClasses - {WORKING};
        if reply.error.HostPermission? {
          containerClasses := containerClasses + {ALERT};
          buttonTitle := Some(GRANT_TITLE);
        } else {
          containerClasses := containerClasses + {ERROR};
          statuses := statuses + [FAIL_PREFIX + ErrorText(reply.error)];
        }
      }
    }

    /**
     * `refreshProfileDetail_`, synchronous part: without a model it fails at
     * once and touches nothing; otherwise 'working' is added and the detail
     * fetch starts when the model has a profile. With a model but no profile
     * the source throws on the null profile right after adding 'working': no
     * fetch starts, so nothing ever removes 'working'.
     */
    method BeginRefreshProfileDetail() returns (started: bool)
      modifies this`containerClasses
      ensures started == (model.Some? && model.value.hasProfile)
      ensures containerClasses == (if model.Some? then old(containerClasses) + {WORKING} else old(containerClasses))
    {
      if model.None? {
        return false;
      }
      containerClasses := containerClasses + {WORKING};
      started := model.value.hasProfile;
    }

    /**
     * `refreshProfileDetail_`, once the detail fetch settles: 'working' is
     * removed; a non-null detail adds 'exist' and is rendered; a failure hides
     * the detail and adds 'alert' (host permission) or 'error' and a status.
     */
    method CompleteRefreshProfileDetail(reply: Reply<Option<TwitterProfile>>)
      modifies this`containerClasses, this`detail, this`detailShown, this`statuses
      ensures reply.Succeeded? && reply.value.None? ==>
        containerClasses == old(containerClasses) - {WORKING}
        && detail == old(detail) && detailShown == old(detailShown) && statuses == old(statuses)
      ensures reply.Succeeded? && reply.value.Some? ==>
        containerClasses == old(containerClasses) - {WORKING} + {EXIST}
        && detail == Some(ProfileView(reply.value.value)) && detailShown && statuses == old(statuses)
      ensures reply.Failed? ==>
        containerClasses == FailedClasses(old(containerClasses), reply.error)
        && statuses == old(statuses) + FailStatus(reply.error) && detail == old(detail) && !detailShown
    {
      if reply.Succeeded? {
        containerClasses := containerClasses - {WORKING};
        if reply.value.None? {
          return;
        }
        containerClasses := containerClasses + {EXIST};
        RenderProfileDetail(reply.value.value);
      } else {
        detailShown := false;
        containerClasses := containerClasses - {WORKING};
        if reply.error.HostPermission? {
          containerClasses := containerClasses + {ALERT};
        } else {
          containerClasses := containerClasses + {ERROR};
          statuses := statuses + [FAIL_PREFIX + ErrorText(reply.error)];
        }
      }
    }

    /** `refresh_`, synchronous part: the detail fetch (see `BeginRefreshProfileDetail`). */
    method Refresh() returns (detailStarted: bool)
      modifies this`containerClasses
      ensures detailStarted == (model.Some? && model.value.hasProfile)
      ensures containerClasses == (if model.Some? then old(containerClasses) + {WORKING} else old(containerClasses))
    {
      detailStarted := BeginRefreshProfileDetail();
    }

    /**
     * `refresh_`, once the detail fetch settles: the detail is handled, and
     * the timeline is refreshed only when the detail fetch succeeded (also
     * with a null detail); after a failure it is not.
     */
    method CompleteRefresh(reply: Reply<Option<TwitterProfile>>) returns (tweetsStarted: bool)
      modifies this`containerClasses, this`detail, this`detailShown, this`statuses
      ensures tweetsStarted <==> reply.Succeeded? && hasTweetsElement
      ensures reply.Failed? ==>
        containerClasses == FailedClasses(old(containerClasses), reply.error)
        && statuses == old(statuses) + FailStatus(reply.error) && !detailShown
        && detail == old(detail)
      ensures reply.Succeeded? ==>
        containerClasses == old(containerClasses) - {WORKING}
          + (if reply.value.Some? then {EXIST} else {}) + (if hasTweetsElement then {WORKING} else {})
        && statuses == old(statuses)
      ensures reply.Succeeded? && reply.value.Some? ==> detail == Some(ProfileView(reply.value.value)) && detailShown
      ensures reply.Succeeded? && reply.value.None? ==> detail == old(detail) && detailShown == old(detailShown)
    {
      CompleteRefreshProfileDetail(reply);
      tweetsStarted := false;
      if reply.Succeeded? {
        tweetsStarted := BeginRefreshTweet();
      }
    }

    /** `redraw`: a refresh starts only when the model has a profile. */
    method Redraw() returns (detailStarted: bool)
      modifies this`containerClasses
      ensures detailStarted <==> model.Some? && model.value.hasProfile
      ensures containerClasses == (if detailStarted then old(containerClasses) + {WORKING} else old(containerClasses))
    {
      detailStarted := false;
      if model.Some? && model.value.hasProfile {
        detailStarted := Refresh();
      }
    }

    /** `onButtonClicked_`: the button refreshes (the source throws when the model has no profile). */
    method OnButtonClicked() returns (detailStarted: bool)
      modifies this`containerClasses
      ensures detailStarted == (model.Some? && model.value.hasProfile)
      ensures containerClasses == (if model.Some? then old(containerClasses) + {WORKING} else old(containerClasses))
    {
      detailStarted := Refresh();
    }
  }
}

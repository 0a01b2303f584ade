# Verified model of the YDN CRM extension's widget logic

This project models, in Dafny, the decision logic inside eight widgets of the
YDN CRM browser extension. The extension adds a SugarCRM sidebar, e-mail
tracking and social-profile panels to Gmail, and has an options page.

- The calendar setting panel picks the Google calendar to synchronise and shows that choice.
- The options page registers tab pages from the user's dashboard profile and switches between them.
- The heads-up display (HUD) in Gmail has an open/closed drawer, a draggable top offset saved to local storage, and login-dependent panels.
- The SugarCRM application follows the SugarCRM instance the background page reports. When the domain changes, it replaces its attach-button provider.
- The Twitter and AngelList widgets fetch a profile and render it. They mark their container `working`, then `exist`, `alert` or `error`.
- The tracking application creates its result widget lazily, at most once.
- The context container holds the header, content and footer slots of the Gmail context panel.

The DOM is abstract in the model:

- an element's class list is a `set<string>`;
- a shown/hidden element is a `bool`;
- a text is a `string`;
- lists of child elements are sequences of datatypes.

Each widget whose fields change in place is a `class` whose methods have `modifies` frames. Asynchronous replies are method arguments. These include background-channel messages, fetches, local storage and the calendar dialog. A method with the `Begin` prefix models the synchronous part of a call. The matching `Complete`/`On…Reply` method models the callback or errback, once the request settles. Opaque collaborators appear only as serial numbers or opaque values, with the dispose/listen facts the widgets record. These are the attach-button providers, the tracking widget and the archiver.

The module `Js` states the JavaScript value semantics the code relies on:

- truthiness of nullable strings and `s || d`;
- `Array.prototype.join`;
- `String(n)` for non-negative integers and `parseInt(s, 10)`;
- `trim` and `toLowerCase`.

`Channel` is a settled reply with its three kinds of error: `null`, the host-permission error, and any other error. `UserSettings` holds the user-setting answers a handler reads.

## Model

| member | source | states |
|---|---|---|
| Js.ParseIntDecimal | src/ydn/crm/inj/hud.js:220-228 | `parseInt` in base 10 of the decimal text of n gives back n |
| Js.TrimSpec | src/ydn/crm/option-app.js:221 | `trim` returns a slice `s[a..b]` of its input where everything before `a` and from `b` on is white space, the slice itself neither starts nor ends with white space, and an already trimmed string comes back unchanged |
| Js.ToLowerSpec | src/ydn/crm/option-app.js:221 | `toLowerCase` keeps the length, turns each upper-case ASCII letter into the lower-case letter 32 code points above it, keeps every other character at its index, leaves no upper-case letter, keeps trimmedness and does not change lower-case text |
| Js.JoinCommaCount | src/ydn/social/ui/angel.js:130 | joining comma-free parts with ', ' yields exactly one comma per boundary between parts, so no part is dropped |
| CalendarSetting.CandidateCalAt | src/ydn/crm/gdata/calendar-setting-panel.js:166-174 | the proposed calendar is the id of the first entry that is primary or owned, whatever follows |
| CalendarSetting.CandidateCalNone | src/ydn/crm/gdata/calendar-setting-panel.js:166-175 | nothing is proposed exactly when no entry is primary or owned |
| CalendarSetting.OwnerBeatsLaterPrimary | src/ydn/crm/gdata/calendar-setting-panel.js:166-174 | an owned entry ahead of a primary one is the one proposed |
| CalendarSetting.SelectedCalSpec | src/ydn/crm/gdata/calendar-setting-panel.js:188-194 | the selected entry is the first entry with the selected id; None exactly when no entry has that id |
| CalendarSetting.CalendarSettingPanel.constructor | src/ydn/crm/gdata/calendar-setting-panel.js:41-72 | no calendar list and no selected id |
| CalendarSetting.CalendarSettingPanel.FindCandidateCal | src/ydn/crm/gdata/calendar-setting-panel.js:165-176 | the loop returns the first primary-or-owned entry's id (`CandidateCal`), null if there is none |
| CalendarSetting.CalendarSettingPanel.GetSelectedCalendar | src/ydn/crm/gdata/calendar-setting-panel.js:184-195 | null without a selected id; otherwise the first entry carrying the id (`SelectedCal`), or null |
| CalendarSetting.CalendarSettingPanel.RefreshView | src/ydn/crm/gdata/calendar-setting-panel.js:201-224 | the checkbox and sync panel equal "an id is selected"; no id: empty message and link; found: link text is the summary or 'My Calendar', target the id; not found: the message `Sync Calendar "<id>" not found.`, also posted as a status |
| CalendarSetting.CalendarSettingPanel.BeginRefresh | src/ydn/crm/gdata/calendar-setting-panel.js:231-232 | the message line reads 'Loading data...' |
| CalendarSetting.CalendarSettingPanel.OnSettingReply | src/ydn/crm/gdata/calendar-setting-panel.js:234-240 | the selected id becomes the setting's non-empty `syncCalId`, else null; an event update is requested exactly when it is non-null |
| CalendarSetting.CalendarSettingPanel.OnCalendarList | src/ydn/crm/gdata/calendar-setting-panel.js:242-247 | the list is kept, the selected id is unchanged, and the view is what `refresh_` derives for the new list |
| CalendarSetting.CalendarSettingPanel.SetSync | src/ydn/crm/gdata/calendar-setting-panel.js:137-141 | the dialog opens exactly for `true` |
| CalendarSetting.CalendarSettingPanel.OnDialogResult | src/ydn/crm/gdata/calendar-setting-panel.js:150-153 | the dialog's result becomes the selected id and a full refresh starts |
| OptionApp.NormalizeTabNameSpec | src/ydn/crm/option-app.js:220-221 | '' looks up 'home'; the looked-up name is trimmed and lower-case; normalising it again changes nothing unless it is '' |
| OptionApp.PlanKnown | src/ydn/crm/option-app.js:149-167 | every page added is the page its profile name stands for (tracking, about-sugarcrm, about-tracking, sugarcrm), unless it is the 'home' entry |
| OptionApp.PlanHome | src/ydn/crm/option-app.js:149-167 | only the first profile entry is named 'home'; 'home' is added, and first, exactly when that entry is a known name, and then it holds the page that entry names |
| OptionApp.PlanCount | src/ydn/crm/option-app.js:149-167 | every profile entry either adds one page or logs one console error |
| OptionApp.ContentForSpec | src/ydn/crm/option-app.js:101-104 | the content divs added are the added tab names, in order, all hidden |
| OptionApp.MenuForSpec | src/ydn/crm/option-app.js:91-99 | the menu items added link to '#' plus each tab name, are labelled by their page, come in order, and only the first item of an empty menu is selected |
| OptionApp.RegisteredLast | src/ydn/crm/option-app.js:88 | a tab name is registered under the last page added with that name |
| OptionApp.RegisteredKeys | src/ydn/crm/option-app.js:88 | the registered names are the names registered before plus the added tab names, and no others |
| OptionApp.SetupStep | src/ydn/crm/option-app.js:150-166 | one more profile entry extends the pages, menu, content and errors by exactly that entry's page or error |
| OptionApp.LastIndexOfSpec | src/ydn/crm/option-app.js:226-231 | -1 exactly when no div has the name; otherwise the found div has it and no later div does |
| OptionApp.OptionPageApp.constructor | src/ydn/crm/option-app.js:43-72 | no pages, menu items, content divs or statuses |
| OptionApp.OptionPageApp.AddPage | src/ydn/crm/option-app.js:87-106 | the page is stored under its name; one menu item and one hidden div are appended, so menu and content grow in lockstep; the item is selected only if the menu was empty |
| OptionApp.OptionPageApp.UpdateUserInfo | src/ydn/crm/option-app.js:114-140 | null changes nothing; logged in: 'logout', logout URL, e-mail, menu and content shown; otherwise: 'login', login URL, button shown, name cleared, menu and content hidden |
| OptionApp.OptionPageApp.ProcessUserPageSetup | src/ydn/crm/option-app.js:148-170 | pages, menu, content and console errors become the old ones extended by the profile's plan (`Registered`, `MenuFor`, `ContentFor`, `SetupErrors`), the loop invariant keeping menu and content in lockstep |
| OptionApp.OptionPageApp.ShowPanel | src/ydn/crm/option-app.js:219-248 | not found: the status 'Invalid tab name: <name>' and nothing else changes; found at the last matching index k: only div k shown, only item k 'selected', and `onPageShow` called once, on the page registered under the name |
| OptionApp.OptionPageApp.SelectPanel | src/ydn/crm/option-app.js:237-247 | the backward loop shows only div k, selects only item k, and calls `onPageShow` once |
| HudModel.ClickTwice | src/ydn/crm/inj/hud.js:70-72 | a click flips 'open', and two clicks give back the class set |
| HudModel.StripPxDecimal | src/ydn/crm/inj/hud.js:198-207 | saving a "NNpx" top stores exactly NN |
| HudModel.DragThenRestore | src/ydn/crm/inj/hud.js:215-237 | a drag-set top is 49..397 px; saved and loaded it is restored unchanged exactly when above 50; the max-height reserve is top + 40 |
| HudModel.DragNotRestored | src/ydn/crm/inj/hud.js:276-280 | a drag to 51 or 52 sets a top that the next load ignores |
| HudModel.Hud.constructor | src/ydn/crm/inj/hud.js:97-178 | the drawer is closed with the right arrow; the setup and invalid-login panels are hidden |
| HudModel.Hud.SetDrawerOpen | src/ydn/crm/inj/hud.js:79-90 | 'open' is on the root iff `val`, whatever the prior state, with no other class touched; the arrow box holds exactly one icon for that state |
| HudModel.Hud.OnClick | src/ydn/crm/inj/hud.js:70-72 | the drawer state flips |
| HudModel.Hud.OnDrawerRequest | src/ydn/crm/inj/hud.js:185-190 | the drawer opens only for `detail.open == true` and closes otherwise |
| HudModel.Hud.OnRowResize | src/ydn/crm/inj/hud.js:273-282 | only for 50 < clientY < 400 does the top become (clientY - 2)px, which parses back to a value in 49..397 |
| HudModel.Hud.SavePosition | src/ydn/crm/inj/hud.js:196-208 | the top style minus its last two characters is stored |
| HudModel.Hud.OnRowDragEnd | src/ydn/crm/inj/hud.js:259-266 | ending a drag stores the top style minus its 'px', the value `LoadPosition` later restores |
| HudModel.Hud.LoadPosition | src/ydn/crm/inj/hud.js:215-237 | a stored value strictly between 50 and 400 becomes the top; the max-height uses top_px + 40, default 200, even when not applied; the callback runs |
| HudModel.Hud.HandleUserLogin | src/ydn/crm/inj/hud.js:289-323 | valid login: setup and invalid panel hidden, 'invalid' removed; wrong login: 'invalid' added, panel shown with the login and Gmail addresses; logged out: setup and content shown, drawer open, invalid panel hidden, 'invalid' kept; the invalid panel is never shown without 'invalid' |
| SugarCrm.SugarCrmApp.constructor | src/ydn/crm/inj/sugarcrm-app.js:51-105 | domain '' and no attach-button provider; nothing handed to any panel |
| SugarCrm.SugarCrmApp.DropAttacher | src/ydn/crm/inj/sugarcrm-app.js:218-224 | the current provider is unlistened and disposed |
| SugarCrm.SugarCrmApp.UpdateSugarCrm | src/ydn/crm/inj/sugarcrm-app.js:201-248 | same domain: nothing changes; new domain: domain and sidebar updated, old provider disposed, a new one listened to, heading and context get an archiver and a model from the same details; null: domain '', the three panels cleared, provider disposed but `attacher_` kept; at most one provider is ever listened to |
| SugarCrm.SugarCrmApp.UpdateSugarPanels | src/ydn/crm/inj/sugarcrm-app.js:255-264 | one more SugarCRM details request |
| SugarCrm.SugarCrmApp.Refresh | src/ydn/crm/inj/sugarcrm-app.js:183-194 | the sidebar is shown iff the login is valid; otherwise the heading injector is cleared; both re-request the details |
| SugarCrm.SugarCrmApp.Init | src/ydn/crm/inj/sugarcrm-app.js:144-164 | sidebar added and events listened to; the refresh runs now only when the setting is ready |
| SugarCrm.SugarCrmApp.OnUserStatusChange | src/ydn/crm/inj/sugarcrm-app.js:172-177 | every login or logout refreshes |
| SugarCrm.SugarCrmApp.HandleSugarDomainChanges | src/ydn/crm/inj/sugarcrm-app.js:132-138 | a status is posted and the details are requested again |
| SugarCrm.SugarCrmApp.OnViewRecord | src/ydn/crm/inj/sugarcrm-app.js:119-125 | the sidebar shows exactly the event's module and id |
| Twitter.ProfileViewSpec | src/ydn/social/ui/twitter.js:61-83 | the name is '@' + screen name, the description defaults to '', and the location is shown only when present and not 'Global' |
| Twitter.TweetItemsSpec | src/ydn/social/ui/twitter.js:96-114 | one entry per tweet, in input order; a location only when meaningful; a time only for a positive timestamp |
| Twitter.TweetItemsAppend | src/ydn/social/ui/twitter.js:100-114 | rendering a concatenation renders the two lists one after the other |
| Twitter.FailureOutcome | src/ydn/social/ui/twitter.js:141-149 | a failure removes 'working' and adds exactly one of 'alert' (host permission) or 'error', with a status only for 'error' |
| Twitter.TwitterWidget.constructor | src/ydn/social/ui/twitter.js:38-41 | no classes, no detail, no tweets |
| Twitter.TwitterWidget.RenderProfileDetail | src/ydn/social/ui/twitter.js:61-83 | the element is emptied, then filled from the profile and shown |
| Twitter.TwitterWidget.RenderTweet | src/ydn/social/ui/twitter.js:92-115 | the list is replaced by the entries of the tweets (`TweetItems`), so re-rendering never duplicates |
| Twitter.TwitterWidget.BeginRefreshTweet | src/ydn/social/ui/twitter.js:122-130 | without a tweets list nothing changes; otherwise 'working' is added and the fetch starts |
| Twitter.TwitterWidget.CompleteRefreshTweet | src/ydn/social/ui/twitter.js:131-150 | 'working' removed on every outcome; 'exist' and rendering only for a non-null timeline; a failure adds 'alert' and the grant title, or 'error' and a status |
| Twitter.TwitterWidget.BeginRefreshProfileDetail | src/ydn/social/ui/twitter.js:158-166 | without a model it fails with no change; otherwise 'working' is added, and the detail fetch starts exactly when the model has a profile (without one the source throws and 'working' stays) |
| Twitter.TwitterWidget.CompleteRefreshProfileDetail | src/ydn/social/ui/twitter.js:167-186 | 'working' removed on every outcome; 'exist' and the detail only for a non-null profile; a failure hides the detail and adds 'alert' or 'error' and a status |
| Twitter.TwitterWidget.Refresh | src/ydn/social/ui/twitter.js:193-197 | the detail fetch starts exactly when the model has a profile; 'working' is added whenever there is a model |
| Twitter.TwitterWidget.CompleteRefresh | src/ydn/social/ui/twitter.js:193-197 | the timeline is fetched exactly when the detail fetch succeeded and there is a tweets list; a non-null detail is rendered and shown, a null one leaves the detail as it was, success posts no status, and a failure hides the detail, keeps its content and posts the failure status |
| Twitter.TwitterWidget.Redraw | src/ydn/social/ui/twitter.js:203-209 | a refresh starts exactly when the model has a profile |
| Twitter.TwitterWidget.OnButtonClicked | src/ydn/social/ui/twitter.js:216-218 | the button refreshes: a fetch starts exactly when the model has a profile, and 'working' is added whenever there is a model |
| Angel.TruthyValuesSpec | src/ydn/social/ui/angel.js:123-129 | the kept places are the truthy values, in order: filtering distributes over concatenation, keeps every truthy value and no empty one |
| Angel.RenderRolesSpec | src/ydn/social/ui/angel.js:139-147 | every role is joined, none filtered: comma-free names give one separator per pair of neighbouring roles |
| Angel.PlacesTextSpec | src/ydn/social/ui/angel.js:120-131 | the places text has one separator per pair of neighbouring truthy values |
| Angel.RenderPlaceLived | src/ydn/social/ui/angel.js:120-131 | null leaves the element untouched; otherwise the push loop yields the truthy values in order (`TruthyValues`) joined by ', ' |
| Angel.KnownViewSpec | src/ydn/social/ui/angel.js:69-85 | no URL or photo removes `href`/`src`; missing bio, followers and following show '' |
| Angel.FailureOutcome | src/ydn/social/ui/angel.js:200-210 | a failure removes 'working' and adds 'alert' exactly for host permission and 'error' exactly for another error; a null error adds neither |
| Angel.AngelWidget.constructor | src/ydn/social/ui/angel.js:38-41 | no classes, an empty detail, no statuses |
| Angel.AngelWidget.RefreshByFC | src/ydn/social/ui/angel.js:60-86 | the detail is emptied, filled from the known profile and shown |
| Angel.AngelWidget.FetchDetailAndRefresh | src/ydn/social/ui/angel.js:180-189 | nothing without a model; otherwise 'working' is added and 'exist' removed, and the fetch starts exactly when the model has a profile (without one the source throws and 'working' stays) |
| Angel.AngelWidget.CompleteFetchDetail | src/ydn/social/ui/angel.js:190-211 | 'working' removed on every outcome; 'exist' re-added and the detail rendered only for a non-null detail; a failure hides the detail and adds 'alert' and the grant title, or 'error' and a status |
| Angel.AngelWidget.Redraw | src/ydn/social/ui/angel.js:92-112 | the detail is always emptied; with a profile the container is shown and a fetch starts; without one the container and detail are hidden and 'empty' is added |
| Angel.AngelWidget.OnButtonClicked | src/ydn/social/ui/angel.js:219-221 | the button starts a fetch exactly when the model has a profile; with any model 'working' is added and 'exist' removed |
| TrackingApp.CreatedSpec | src/ydn/crm/inj/tracking-app.js:148-157 | the widget exists after a run of attach steps exactly when one of them saw a valid login |
| TrackingApp.CreatedStays | src/ydn/crm/inj/tracking-app.js:150-156 | once created, the widget survives any later attach steps, logouts included |
| TrackingApp.TrackingApp.constructor | src/ydn/crm/inj/tracking-app.js:54-98 | no result widget |
| TrackingApp.TrackingApp.AttachResultPanel | src/ydn/crm/inj/tracking-app.js:148-157 | a widget is created only under a valid login and only if none exists, and handed to the heading injector once; an existing one is never replaced |
| TrackingApp.TrackingApp.Init | src/ydn/crm/inj/tracking-app.js:117-131 | sidebar created, events listened to, and the same attach step runs |
| TrackingApp.TrackingApp.OnUserStatusChange | src/ydn/crm/inj/tracking-app.js:139-141 | every login or logout runs the attach step |
| ContextContainer.ContextContainer.constructor | src/ydn/crm/inj/context-container.js:39-52 | detached, root hidden, the three slots followed by the setup-link div |
| ContextContainer.ContextContainer.CreateDom | src/ydn/crm/inj/context-container.js:99-130 | three empty slots, then the hidden setup-link div as child 3, never the header |
| ContextContainer.ContextContainer.SetUserSetting | src/ydn/crm/inj/context-container.js:138-146 | the header is hidden iff the user is known with a valid login; no other child changes |
| ContextContainer.ContextContainer.GetSlot | src/ydn/crm/inj/context-container.js:160-178 | header, content and footer are children 0, 1 and 2, none of them the setup link |
| ContextContainer.ContextContainer.Attach | src/ydn/crm/inj/context-container.js:184-187 | the attached flag is set; attaching again changes nothing |
| ContextContainer.ContextContainer.Detach | src/ydn/crm/inj/context-container.js:193-195 | the attached flag is cleared |
| ContextContainer.ContextContainer.IsAttached | src/ydn/crm/inj/context-container.js:231-233 | reports the last value attach or detach left |
| ContextContainer.ContextContainer.AttachToGmailRightBar | src/ydn/crm/inj/context-container.js:202-204 | the empty body changes nothing |
| ContextContainer.ContextContainer.OnGmailPageChanged | src/ydn/crm/inj/context-container.js:210-213 | the attached flag and the children stay as they are |
| ContextContainer.ContextContainer.OnGmailContextEvent | src/ydn/crm/inj/context-container.js:221-225 | the attached flag and the children stay as they are |

## Left out

- Background channel, `chrome.storage.local`, the calendar dialog and the profile fetchers are asynchronous I/O with unseen services. Only their settled replies are modelled, as method arguments. The requests themselves are left out: `OptionPageApp.login` and `run`, and the channel sends in `CalendarSettingPanel.refresh` and `SugarCrmApp.updateSugarPanels_`.
- The order of overlapping in-flight fetches and `goog.Timer.callOnce` delays is left out. Each callback is modelled as running on its own.
- DOM construction and event wiring are left out: template cloning, soy rendering, `goog.events` listen/unlisten, `enterDocument`, `render` of the calendar panel and options page, and `page.render(div)` in `addPage`. The listener registration and cursor styles of the HUD's drag start/end handlers are also left out; drag end then saves the position, which is `OnRowDragEnd` calling `SavePosition`.
- HudModel.Hud.constructor: the root's classes from the HUD template and the `gmail-offline` class for the offline Gmail app are not modelled. The root starts with no classes. `render`'s call to `loadPosition_` is the separate `LoadPosition`.
- HudModel.Hud.OnDrawerRequest: `detail.open == true` is read as "the value is the boolean true". JavaScript's loose equality would also accept 1 or "1".
- HudModel.Hud.HandleUserLogin: the extension id in the wrong-login template data is not modelled.
- HudModel.StoredTopPx: a stored top that is not a string is not modelled. The stored value is always text.
- Js.Trim and Js.ParseInt (whose leading white space is cut by `TrimStart`): the Unicode space separators other than U+00A0 are not treated as white space.
- Js.ToLower: only ASCII letters are lower-cased; other case mappings are not modelled.
- CalendarSetting.CalendarSettingPanel.OnCalendarList: a null calendar-list reply is not modelled. `refresh_` would then read `items` of null.
- CalendarSetting: the error callbacks that only log to the console are not modelled.
- Twitter.TweetItemOf: the relative time text is not modelled. A tweet's time is the integer timestamp it would be formatted from, and `Date` parsing is an integer input.
- Twitter and Angel: Twitter's `followers` and `friends` counts and the fetched AngelList profile's `followerCount` arrive as the text they render as. The known profile's `followers` and `following` are numbers, rendered by `CountText`. The base redraw of the widgets' superclass is not modelled.
- Angel.AngelWidget.Redraw: the classes `resetBaseClass` leaves are the `baseClasses` parameter.
- Twitter.TwitterWidget.BeginRefreshProfileDetail and Angel.AngelWidget.FetchDetailAndRefresh: when the model has no profile, the source throws a TypeError after changing the classes. The model does not carry the exception. It returns that no fetch started and leaves 'working' set, the state the throw leaves behind.
- OptionApp.OptionPageApp.ProcessUserPageSetup: each page's `toString()` label is the `pageLabel` parameter. The constructed page objects are their `Page` values.
- SugarCrm.SugarCrmApp.UpdateSugarPanels: only the request count is modelled. The reply is `UpdateSugarCrm`, and the errback that logs to the console is left out.
- ContextContainer.ContextContainer.constructor: the `opt_root_ele` path is not modelled, where the root is taken from the page instead of created. The Gmail observer's event wiring is also left out.
- `getElement`, `getFooterElement` and `addPanel` of the HUD only return or append elements. They carry no state beyond the slot layout modelled by `GetSlot`.

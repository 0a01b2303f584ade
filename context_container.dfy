/**
 * The container of the context panel inside Gmail
 * (ydn.crm.inj.ContextContainer): a root element holding one container div
 * whose children are the header, content and footer slots, plus an attached
 * flag.
 *
 * The container div's children are a sequence; each child records whether it
 * is shown and whether it is the div holding the 'Setup' link.
 */
module ContextContainer {
  import opened Js
  import opened UserSettings

  /** A child of the container div. */
  datatype Child = Child(shown: bool, setupLink: bool)

  /** One of the three empty slot divs. */
  const PLACEHOLDER := Child(true, false)
  /** The hidden div holding the 'Setup' link. */
  const SETUP_HEADER := Child(false, true)

  /** The children the header, content and footer accessors return. */
  const HEADER_INDEX := 0
  const CONTENT_INDEX := 1
  const FOOTER_INDEX := 2

  class ContextContainer {
    var hasAttached: bool       // has_attached_
    var rootShown: bool         // ele_root is shown
    var children: seq<Child>    // children of ele_root.firstElementChild

    /** The container div holds the three slots and then the setup-link div. */
    ghost predicate Valid()
      reads this
    {
      |children| == 4 && children[3] == Child(children[3].shown, true)
      && forall i :: 0 <= i < 3 ==> !children[i].setupLink
    }

    /** A new container, built by `createDom`: detached, with its root hidden. */
    constructor ()
      ensures Valid() && !hasAttached && !rootShown
      ensures children == [PLACEHOLDER, PLACEHOLDER, PLACEHOLDER, SETUP_HEADER]
    {
      hasAttached := false;
      rootShown := true;
      children := [];
      new;
      CreateDom();
      hasAttached := false;
      rootShown := false;
    }

    /**
     * `createDom`: the root is hidden, three empty slots are appended and the
     * hidden setup-link div comes after them, as child 3, so it is not the
     * child the header accessor returns.
     */
    method CreateDom()
      modifies this`rootShown, this`children
      ensures !rootShown && Valid()
      ensures children == [PLACEHOLDER, PLACEHOLDER, PLACEHOLDER, SETUP_HEADER]
      ensures !children[HEADER_INDEX].setupLink && children[3].setupLink && !children[3].shown
    {
      rootShown := false;
      children := [];
      var i := 0;
      while i < 3
        invariant 0 <= i <= 3 && !rootShown
        invariant children == seq(i, _ => PLACEHOLDER)
      {
        children := children + [PLACEHOLDER];
        i := i + 1;
      }
      children := children + [SETUP_HEADER];
    }

    /**
     * `setUserSetting`: the header child is hidden when the user is known
     * and has a valid login, and shown otherwise; no other child changes.
     */
    method SetUserSetting(user: Option<UserSetting>)
      requires Valid()
      modifies this`children
      ensures Valid()
      ensures children[HEADER_INDEX].shown <==> !(user.Some? && user.value.validLogin)
      ensures children == old(children)[HEADER_INDEX := Child(children[HEADER_INDEX].shown, old(children)[HEADER_INDEX].setupLink)]
    {
      var header := children[HEADER_INDEX];
      if user.Some? && user.value.validLogin {
        children := children[HEADER_INDEX := header.(shown := false)];
      } else {
        children := children[HEADER_INDEX := header.(shown := true)];
      }
    }

    /** `getHeaderElement`, `getContentElement`, `getFooterElement`: children 0, 1 and 2. */
    method GetSlot(index: nat) returns (c: Child)
      requires Valid() && index < 3
      ensures c == children[index] && !c.setupLink
    {
      c := children[index];
    }

    /** `attach`: the flag is set; attaching again changes nothing more. */
    method Attach()
      modifies this`hasAttached
      ensures hasAttached
    {
      hasAttached := true;
    }

    /** `detach`: the flag is cleared. */
    method Detach()
      modifies this`hasAttached
      ensures !hasAttached
    {
      hasAttached := false;
    }

    /** `isAttached`: the last value attach or detach left. */
    method IsAttached() returns (r: bool)
      ensures r == hasAttached
    {
      r := hasAttached;
    }

    /** `attachToGmailRightBar`: its body is empty, so nothing changes. */
    method AttachToGmailRightBar(hasContactTable: bool)
      ensures hasAttached == old(hasAttached) && children == old(children)
    {
    }

    /** `onGmailPageChanged`: the attached flag and the children stay as they are. */
    method OnGmailPageChanged()
      ensures hasAttached == old(hasAttached) && children == old(children)
    {
      AttachToGmailRightBar(false);
    }

    /** `onGmailContextEvent_`: the attached flag and the children stay as they are. */
    method OnGmailContextEvent(hasContactTable: bool)
      ensures hasAttached == old(hasAttached) && children == old(children)
    {
      AttachToGmailRightBar(hasContactTable);
    }
  }
}

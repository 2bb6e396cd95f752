/**
 * profile_page_handler: routes "profile/<username>[/edit]" to the profile view or
 * edit page, redirects a logged-in user with no username to their own profile,
 * and turns an unknown or banned user into a "not found" error.
 */
module ProfileRouter {
  import opened Wrappers
  import opened Entities
  import opened ProfileUrl

  /**
   * How the handler ends: a forward() to a URL, the not-found forward() to the
   * site front page, or a rendered resource view.
   */
  datatype Outcome = Redirect(target: string) | NotFound | Render(resource: string)

  /** The request-scoped state the handler changes: page owner, inputs, error messages. */
  datatype RequestState = RequestState(pageOwnerGuid: Option<nat>, input: map<string, string>, errors: seq<string>)

  datatype PageResult = PageResult(outcome: Outcome, state: RequestState)

  const NotFoundMessage := "profile:notfound"
  const EditResource := "profile/edit"
  const ViewResource := "profile/view"
  const EditAction := "edit"
  const UsernameInput := "username"

  /** elgg_is_admin_logged_in(). */
  predicate IsAdminLoggedIn(caller: Option<User>) {
    caller.Some? && caller.value.admin
  }

  /** get_user_by_username(): the user registered under that name, if any. */
  function LookupUser(directory: map<string, User>, username: string): Option<User> {
    if username in directory then Some(directory[username]) else None
  }

  /** The profile page of a user is shown to this caller: it exists, and it is not banned or the caller is an admin. */
  predicate Viewable(directory: map<string, User>, username: string, caller: Option<User>) {
    username in directory && (!directory[username].banned || IsAdminLoggedIn(caller))
  }

  /**
   * What profile_page_handler does with the URL segments `page`, given the user
   * directory, the logged-in user and the request state before the call.
   */
  function ProfilePage(page: seq<string>, directory: map<string, User>, caller: Option<User>, st: RequestState): (r: PageResult)
    // No segment and a logged-in caller: forward to the caller's own profile, nothing else changes.
    ensures r.outcome.Redirect? <==> |page| == 0 && caller.Some?
    ensures r.outcome.Redirect? ==> r.outcome.target == ProfileSetUrl("", caller.value) && r.state == st
    // A page is rendered exactly for an existing user that is not banned, or any user when an admin asks.
    ensures r.outcome.Render? <==> |page| > 0 && Viewable(directory, page[0], caller)
    ensures r.outcome.NotFound? <==> (|page| == 0 && caller.None?) || (|page| > 0 && !Viewable(directory, page[0], caller))
    // The edit page is chosen exactly by a second segment "edit"; every other second segment, or none, gives the view page.
    ensures r.outcome.Render? ==>
              r.outcome.resource == (if |page| > 1 && page[1] == EditAction then EditResource else ViewResource)
    // Whenever a first segment is present, the page owner becomes that user, or null when no such user exists.
    ensures |page| > 0 ==> r.state.pageOwnerGuid == (if page[0] in directory then Some(directory[page[0]].guid) else None)
    ensures |page| == 0 ==> r.state.pageOwnerGuid == st.pageOwnerGuid
    ensures r.outcome.Render? ==> r.state.pageOwnerGuid == Some(directory[page[0]].guid)
    // Only the view page sets the "username" input, to the first segment.
    ensures r.state.input == (if r.outcome == Render(ViewResource) then st.input[UsernameInput := page[0]] else st.input)
    // Exactly the not-found path registers one error message.
    ensures r.state.errors == (if r.outcome.NotFound? then st.errors + [NotFoundMessage] else st.errors)
  {
    var user := if |page| > 0 then LookupUser(directory, page[0]) else None;
    var owned := if |page| > 0 then st.(pageOwnerGuid := if user.Some? then Some(user.value.guid) else None) else st;
    if |page| == 0 && caller.Some? then
      PageResult(Redirect(ProfileSetUrl("", caller.value)), owned)
    else if user.None? || (user.value.banned && !IsAdminLoggedIn(caller)) then
      PageResult(NotFound, owned.(errors := owned.errors + [NotFoundMessage]))
    else if |page| > 1 && page[1] == EditAction then
      PageResult(Render(EditResource), owned)
    else
      PageResult(Render(ViewResource), owned.(input := owned.input[UsernameInput := page[0]]))
  }

  /**
   * A logged-in user who opens "profile" with no username is forwarded to a URL
   * that, routed again, shows that same user's profile page with them as page owner.
   */
  lemma {:induction false} OwnProfileRedirectLandsOnOwnProfile(directory: map<string, User>, me: User, st: RequestState)
    requires me.username in directory && directory[me.username] == me
    requires '/' !in me.username
    requires !me.banned || me.admin
    ensures ProfilePage([], directory, Some(me), st).outcome.Redirect?
    ensures var path := Explode(ProfilePage([], directory, Some(me), st).outcome.target);
            path[0] == ProfileHandler &&
            ProfilePage(path[1..], directory, Some(me), st).outcome == Render(ViewResource) &&
            ProfilePage(path[1..], directory, Some(me), st).state.pageOwnerGuid == Some(me.guid)
  {
    ProfileSetUrlRoutesBack("", me);
    var path := Explode(ProfileSetUrl("", me));
    assert path[1..] == [me.username];
  }

  /** The request-scoped state of one page request, updated in place by the handler. */
  class RequestContext {
    var pageOwnerGuid: Option<nat>
    var input: map<string, string>
    var errors: seq<string>

    constructor (input0: map<string, string>)
      ensures pageOwnerGuid == None && input == input0 && errors == []
    {
      pageOwnerGuid := None;
      input := input0;
      errors := [];
    }

    function State(): RequestState
      reads this
    {
      RequestState(pageOwnerGuid, input, errors)
    }

    /**
     * profile_page_handler, run against this request: sets the page owner and the
     * "username" input, registers the not-found error, and returns how it ends.
     */
    method HandleProfilePage(page: seq<string>, directory: map<string, User>, caller: Option<User>) returns (o: Outcome)
      modifies this
      ensures PageResult(o, State()) == ProfilePage(page, directory, caller, old(State()))
    {
      var user: Option<User> := None;
      if |page| > 0 {
        user := LookupUser(directory, page[0]);
        pageOwnerGuid := if user.Some? then Some(user.value.guid) else None;
      } else if caller.Some? {
        return Redirect(ProfileSetUrl("", caller.value));
      }

      // unknown user, or banned user and the caller is not an admin: not found
      if user.None? || (user.value.banned && !IsAdminLoggedIn(caller)) {
        errors := errors + [NotFoundMessage];
        return NotFound;
      }

      var action: Option<string> := None;
      if |page| > 1 {
        action := Some(page[1]);
      }
      if action == Some(EditAction) {
        return Render(EditResource);
      }

      input := input[UsernameInput := page[0]];
      return Render(ViewResource);
    }
  }
}

# Elgg profile plugin: routing and avatar URLs, in Dafny

This project models the logic of the Elgg profile plugin (`mod/profile/start.php`):

- **the profile page handler**, which takes the URL segments after `profile/`
  (`<username>` and an optional `edit`). It forwards a logged-in user with no
  username to their own profile. It reports "not found" for an unknown user, and for
  a banned user unless an administrator is asking. Otherwise it renders the
  `profile/edit` or `profile/view` resource. On the way it sets the request's page
  owner and, for the view page only, the `username` input;
- **the `entity:icon:url` handler**, which decides a user's avatar URL. It works in
  tiers: a URL set by an earlier handler wins; a user who never uploaded an avatar
  gets the static `.gif` default; an uploaded avatar whose file exists is served
  by `mod/profile/icondirect.php?lastcache=…&guid=…&size=…`; when the existence
  check throws `InvalidParameterException`, the handler logs one ERROR entry and
  falls back to the `.png` default;
- **the `entity:url` handler**, which makes a user's URL `profile/<username>`;
- **the two list hooks**, which add the profile content view to the ECML views and
  add the profile widget set to the default-widget registrations.

Modules: one per component of `start.php`, plus three helper modules (`Wrappers`, `Decimal`, `Entities`):

| file | module | what it holds |
|---|---|---|
| `wrappers.dfy` | `Wrappers` | `Option` (PHP null) and `Result` (a call that may throw) |
| `decimal.dfy` | `Decimal` | PHP's rendering of an int in a string, and reading it back |
| `entities.dfy` | `Entities` | the user entity and PHP truthiness of strings, null and `icontime` |
| `profile_url.dfy` | `ProfileUrl` | `profile_set_url`, and `Explode`, the model's stand-in for the host's split of a request path on `/` |
| `profile_router.dfy` | `ProfileRouter` | `profile_page_handler`: the pure specification `ProfilePage` and the class `RequestContext`, whose method updates the page owner, inputs and error messages in place |
| `profile_icon.dfy` | `ProfileIcon` | `profile_set_icon_url`, and a reference reader for the query layout of the icondirect.php URL |
| `profile_hooks.dfy` | `ProfileHooks` | `profile_ecml_views_hook`, `profile_default_widgets_hook` |

Collaborators are parameters:
- the user directory is a `map<string, User>`, and `ProfileRouter.LookupUser` stands in for `get_user_by_username`;
- the logged-in user is an `Option<User>`;
- the file-existence check is a function returning `Ok(bool)` or `Err(InvalidParameter)`;
- `elgg_get_simplecache_url` is a function from asset paths to URLs;
- the log is the `log` sequence of the icon handler's result;
- `forward()` is a terminal outcome (`Redirect` or `NotFound`);
- a hook handler's bare `return;` is `None`; then the hook chain keeps the URL it was given (`EffectiveIconUrl`).

Three behaviours of the code that differ from what one might expect. The model keeps them as written:

- **Icon file missing.** When `icontime` is set and the file does not exist (no
  exception), `profile_set_icon_url` falls off its end and returns nothing. It does
  not return the `.gif` default, and it does not always produce a URL.
  `ProfileIcon.ProfileSetIconUrl` keeps this: its result is `None` exactly when an
  earlier URL is set or the file is missing.
- **No username and nobody logged in.** The handler tests an undefined `$user`,
  which is falsy, so the outcome is "not found". The model gives the same
  outcome and leaves the page owner unchanged.
- **Unknown username.** `$user->guid` of a missing user is null, so the page owner
  becomes null (`None`) before the not-found outcome.

Equal inputs give equal icon URLs: `ProfileIcon.ProfileSetIconUrl` is a function of
its inputs, so that holds by construction.

## Model

| member | source | states |
|---|---|---|
| `ProfileRouter.ProfilePage` | mod/profile/start.php:53-83 | Redirect to the caller's own profile URL iff there is no segment and a caller is logged in, with the request state untouched. A page is rendered iff segment 0 names an existing user who is not banned or the caller is an admin. Otherwise the outcome is not-found, which registers exactly one `profile:notfound` error. The edit resource is rendered iff segment 1 is `edit`; any other or absent segment 1 gives the view resource. Only the view page sets input `username` to segment 0. Whenever segment 0 is present the page owner becomes that user's guid, or null for an unknown user. |
| `ProfileRouter.RequestContext.HandleProfilePage` | mod/profile/start.php:53-83 | The imperative handler's outcome and its new page owner, inputs and error list are exactly those of `ProfilePage` applied to the state before the call. |
| `ProfileRouter.OwnProfileRedirectLandsOnOwnProfile` | mod/profile/start.php:53-97 | For a logged-in user known to the directory, not banned or an admin, with no `/` in their name: opening `profile` with no username redirects. That target, split into segments, names the `profile` handler. Routed again, it renders that user's view page with that user as page owner. |
| `ProfileUrl.ProfileSetUrl` | mod/profile/start.php:94-97 | A user's URL is `profile/` followed by the username, whatever URL it was given. |
| `ProfileUrl.ProfileSetUrlRoutesBack` | mod/profile/start.php:94-97 | A user URL, split on `/`, gives the `profile` handler and the username as the only page segment, for any username without `/`. |
| `ProfileIcon.ProfileSetIconUrl` | mod/profile/start.php:108-137 | A truthy incoming URL gives no result and no log. A falsy icon time gives the simple-cache URL of `icons/user/default<size>.gif`, with no log. An existing file gives exactly `mod/profile/icondirect.php?lastcache=<icontime>&guid=<guid>&size=<size>`, with no log; its query reads back as the icon time, the guid and the size. A throwing check gives the simple-cache URL of `icons/default/<size>.png` and exactly one ERROR entry ending with the guid. Something is logged iff the check threw. The result is empty iff the incoming URL is truthy or the file is missing. |
| `ProfileIcon.IconDirectUrlRoundTrip` | mod/profile/start.php:131 | Reading the query of the icondirect.php URL gives back exactly the lastcache, guid and size that were put in. |
| `ProfileIcon.CacheBusting` | mod/profile/start.php:131 | For one user and size, two icon times give the same URL iff they are equal. The two queries differ in `lastcache` alone. |
| `ProfileIcon.OverrideWins` | mod/profile/start.php:110-113 | With a truthy incoming URL, the URL after the hook is the incoming one, whatever the icon time and storage say. |
| `ProfileIcon.StorageNotConsultedWithoutIconTime` | mod/profile/start.php:119-123 | With a falsy icon time, the result is the same under any two storage behaviours. |
| `Decimal.NatToDecimal` | mod/profile/start.php:131 | The interpolated text of an int is non-empty and all digits; it starts with `0` only when it is exactly `0`. |
| `Decimal.DecimalRoundTrip` | mod/profile/start.php:131 | Reading the decimal text of n gives back n. |
| `ProfileHooks.EcmlViews` | mod/profile/start.php:147-151 | The result has the old views plus `profile/profile_content`, which maps to the translated title. Every other view keeps its value. |
| `ProfileHooks.DefaultWidgets` | mod/profile/start.php:161-173 | The result is one longer. The old registrations stay in place and in order. The last one is the profile set: the `profile` context, 3 columns, created on `create` for type `user` with any subtype. |

## Left out

- `profile_init` and the registrations at the top of `start.php` (lines 8-45) are only calls into the host's hook, event, view and simple-cache registries. They hold no logic of their own.
- `profile_pagesetup` (lines 181-200) only registers a topbar menu item with the viewer's avatar. It returns at once when nobody is logged in.
- `views/default/widgets/editwrapper.php` builds HTML and an inline jQuery submit script. It is presentation only.
- Rendering (`elgg_view_resource`, `echo`) is reduced to the name of the resource rendered. The handler's `return true` is implied by a `Render` outcome.
- Translation (`elgg_echo`) is left out. The error message is kept as its key `profile:notfound`, and the hooks take the translated title `profile` as a parameter.
- The host's router is not modelled. `ProfileUrl.Explode` stands in for its split of a request path into the handler name and the page segments, as a plain `explode('/')`.
- ProfileRouter.ProfilePage: the redirect target is the relative URL built by `profile_set_url`. This assumes this plugin's handler (registered at line 20) is the one that answers `entity:url`. The host's normalisation of the URL to an absolute one is not modelled.
- `ElggFile` storage, the user lookup and simple-cache URL construction are parameters. Exceptions other than `InvalidParameterException` propagate out of the handler in PHP and are not modelled.
- ProfileHooks.EcmlViews: a PHP array is ordered, and a new key goes to its end. The model uses a map, so it does not capture that order.
- PHP truthiness is modelled only for the values tested. A string is falsy iff it is `""` or `"0"`. Null is falsy. An `icontime` is falsy iff it is null or 0. URL segments are strings, never null.

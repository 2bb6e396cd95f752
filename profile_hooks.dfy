/**
 * The two list-extending hooks: the views whose output ECML may parse
 * (profile_ecml_views_hook) and the widget sets admins may make default
 * (profile_default_widgets_hook).
 */
module ProfileHooks {
  import opened Wrappers

  const ProfileContentView := "profile/profile_content"

  /**
   * A default-widgets registration: the widget set's name, the context and
   * number of columns of its layout, and the event, entity type and subtype
   * (None for ELGG_ENTITIES_ANY_VALUE) that create it.
   */
  datatype WidgetRegistration = WidgetRegistration(
    name: string,
    widgetContext: string,
    widgetColumns: nat,
    event: string,
    entityType: string,
    entitySubtype: Option<string>)

  /** The profile's registration: three columns in the "profile" context, created with any user. */
  function ProfileWidgets(title: string): WidgetRegistration {
    WidgetRegistration(title, "profile", 3, "create", "user", None)
  }

  /**
   * profile_ecml_views_hook: adds the profile content view, described by the
   * translated title "profile", and keeps every other view as it was.
   */
  function EcmlViews(views: map<string, string>, title: string): (r: map<string, string>)
    ensures r.Keys == views.Keys + {ProfileContentView}
    ensures r[ProfileContentView] == title
    ensures forall v :: v in views && v != ProfileContentView ==> r[v] == views[v]
  {
    views[ProfileContentView := title]
  }

  /**
   * profile_default_widgets_hook: appends the profile's registration after the
   * registrations already in the list, which stay in place and in order.
   */
  function DefaultWidgets(widgets: seq<WidgetRegistration>, title: string): (r: seq<WidgetRegistration>)
    ensures |r| == |widgets| + 1
    ensures r[..|widgets|] == widgets
    ensures r[|widgets|] == ProfileWidgets(title)
  {
    widgets + [ProfileWidgets(title)]
  }
}

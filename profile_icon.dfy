/**
 * profile_set_icon_url: the `entity:icon:url` handler for users. It leaves a URL
 * set by an earlier handler alone, points users who never uploaded an avatar at
 * the static default, and otherwise points at icondirect.php when the stored
 * icon file exists, logging and falling back to another default when the
 * existence check throws.
 */
module ProfileIcon {
  import opened Wrappers
  import opened Entities
  import opened Decimal

  /** The exception ElggFile::exists() may throw. */
  datatype StorageError = InvalidParameter

  /** A stored file: its owner and its name inside the owner's directory. */
  datatype FileRef = FileRef(ownerGuid: nat, filename: string)

  /** One elgg_log() call: the message and its level. */
  datatype LogEntry = LogEntry(message: string, level: string)

  /** What the handler returns (None for a bare `return;`) and what it logged. */
  datatype IconHookResult = IconHookResult(url: Option<string>, log: seq<LogEntry>)

  /** The three values in the query of an icondirect.php URL. */
  datatype IconQuery = IconQuery(lastcache: nat, guid: nat, size: string)

  const IconDirectBase := "mod/profile/icondirect.php?lastcache="
  const GuidParam := "&guid="
  const SizeParam := "&size="
  const ErrorLevel := "ERROR"
  const IconErrorText := "Unable to get profile icon for user with GUID "

  predicate EndsWith(s: string, suffix: string) {
    |suffix| <= |s| && s[|s| - |suffix|..] == suffix
  }

  /** The avatar file of a user at one size: "profile/<guid><size>.jpg", owned by the user. */
  function IconFile(user: User, size: string): FileRef {
    FileRef(user.guid, "profile/" + NatToDecimal(user.guid) + size + ".jpg")
  }

  /** The static default for users who never uploaded an avatar. */
  function NeverUploadedPath(size: string): string {
    "icons/user/default" + size + ".gif"
  }

  /** The static default used when the avatar file cannot be checked. */
  function BrokenIconPath(size: string): string {
    "icons/default/" + size + ".png"
  }

  function IconErrorMessage(guid: nat): string {
    IconErrorText + NatToDecimal(guid)
  }

  /** The URL of the engine-bypassing avatar endpoint. */
  function IconDirectUrl(iconTime: nat, guid: nat, size: string): string {
    IconDirectBase + NatToDecimal(iconTime) + GuidParam + NatToDecimal(guid) + SizeParam + size
  }

  /**
   * Reads a decimal query value that ends at the separator `sep`: the value and
   * what follows the separator, or None when there is no such value.
   */
  function ParseNumberBefore(s: string, sep: string): Option<(nat, string)> {
    var k := DigitRun(s);
    if k == 0 || !(sep <= s[k..]) then None
    else Some((DecimalValue(s[..k]), s[k + |sep|..]))
  }

  /**
   * A reference reader for the query layout of the icondirect.php URL: the
   * lastcache digits up to "&guid=", the guid digits up to "&size=", and the
   * rest as the size.
   */
  function ParseIconDirectUrl(u: string): Option<IconQuery> {
    if !(IconDirectBase <= u) then None
    else
      match ParseNumberBefore(u[|IconDirectBase|..], GuidParam)
      case None => None
      case Some((lastcache, afterTime)) =>
        match ParseNumberBefore(afterTime, SizeParam)
        case None => None
        case Some((guid, size)) => Some(IconQuery(lastcache, guid, size))
  }

  /** A run of digits followed by a parameter separator: the digit run stops at the separator. */
  lemma {:induction false} DigitRunStopsAtSeparator(d: string, rest: string)
    requires AllDigits(d)
    requires |rest| > 0 && rest[0] == '&'
    ensures DigitRun(d + rest) == |d|
  {
    if d != [] {
      assert (d + rest)[1..] == d[1..] + rest;
      DigitRunStopsAtSeparator(d[1..], rest);
    }
  }

  /** The decimal text of n, a separator, then anything: reading gives back n and that rest. */
  lemma NumberBeforeRoundTrip(n: nat, sep: string, rest: string)
    requires |sep| > 0 && sep[0] == '&'
    ensures ParseNumberBefore(NatToDecimal(n) + (sep + rest), sep) == Some((n, rest))
  {
    var d := NatToDecimal(n);
    var s := d + (sep + rest);
    DigitRunStopsAtSeparator(d, sep + rest);
    assert s[..|d|] == d;
    assert s[|d|..] == sep + rest;
    assert s[|d| + |sep|..] == rest;
    DecimalRoundTrip(n);
  }

  /** The query of an icondirect.php URL reads back as exactly the lastcache, guid and size put in. */
  lemma IconDirectUrlRoundTrip(iconTime: nat, guid: nat, size: string)
    ensures ParseIconDirectUrl(IconDirectUrl(iconTime, guid, size)) == Some(IconQuery(iconTime, guid, size))
  {
    var dt, dg := NatToDecimal(iconTime), NatToDecimal(guid);
    var afterTime := dg + (SizeParam + size);
    var afterBase := dt + (GuidParam + afterTime);
    calc {
      IconDirectUrl(iconTime, guid, size);
      IconDirectBase + dt + GuidParam + dg + SizeParam + size;
      { assert dg + SizeParam + size == afterTime; }
      IconDirectBase + dt + GuidParam + afterTime;
      { assert dt + GuidParam + afterTime == afterBase; }
      IconDirectBase + afterBase;
    }
    assert (IconDirectBase + afterBase)[|IconDirectBase|..] == afterBase;
    NumberBeforeRoundTrip(iconTime, GuidParam, afterTime);
    NumberBeforeRoundTrip(guid, SizeParam, size);
  }

  /**
   * Cache busting: for the same user and size, two icon times give the same URL
   * only when they are equal, and the URLs differ in the lastcache parameter alone.
   */
  lemma CacheBusting(t1: nat, t2: nat, guid: nat, size: string)
    ensures IconDirectUrl(t1, guid, size) == IconDirectUrl(t2, guid, size) <==> t1 == t2
    ensures ParseIconDirectUrl(IconDirectUrl(t1, guid, size)).Some?
    ensures ParseIconDirectUrl(IconDirectUrl(t2, guid, size))
            == Some(ParseIconDirectUrl(IconDirectUrl(t1, guid, size)).value.(lastcache := t2))
  {
    IconDirectUrlRoundTrip(t1, guid, size);
    IconDirectUrlRoundTrip(t2, guid, size);
  }

  /**
   * profile_set_icon_url for `user` at `size`, given the URL earlier handlers set,
   * the storage's existence check and the simple-cache URL builder.
   */
  function ProfileSetIconUrl(url: Option<string>, user: User, size: string,
                             fileExists: FileRef -> Result<bool, StorageError>,
                             simplecacheUrl: string -> string): (r: IconHookResult)
    // A URL set by an earlier handler wins: return nothing, log nothing.
    ensures Truthy(url) ==> r == IconHookResult(None, [])
    // Never uploaded: the .gif default, without asking storage.
    ensures !Truthy(url) && !IconTimeSet(user.iconTime) ==>
              r == IconHookResult(Some(simplecacheUrl(NeverUploadedPath(size))), [])
    // Uploaded and the file is there: the icondirect.php URL, whose query carries the icon time, the guid and the size.
    ensures !Truthy(url) && IconTimeSet(user.iconTime) && fileExists(IconFile(user, size)) == Ok(true) ==>
              r == IconHookResult(Some(IconDirectUrl(user.iconTime.value, user.guid, size)), []) &&
              ParseIconDirectUrl(r.url.value) == Some(IconQuery(user.iconTime.value, user.guid, size))
    // The check threw: the .png default and exactly one ERROR entry naming the guid.
    ensures !Truthy(url) && IconTimeSet(user.iconTime) && fileExists(IconFile(user, size)).Err? ==>
              r.url == Some(simplecacheUrl(BrokenIconPath(size))) &&
              |r.log| == 1 && r.log[0].level == ErrorLevel && EndsWith(r.log[0].message, NatToDecimal(user.guid))
    // Something is logged only when the check threw.
    ensures r.log != [] <==> !Truthy(url) && IconTimeSet(user.iconTime) && fileExists(IconFile(user, size)).Err?
    // The handler returns nothing exactly when an earlier URL is set or the file is missing.
    ensures r.url.None? <==>
              Truthy(url) || (IconTimeSet(user.iconTime) && fileExists(IconFile(user, size)) == Ok(false))
  {
    if Truthy(url) then
      // an earlier handler set a URL: return nothing
      IconHookResult(None, [])
    else if !IconTimeSet(user.iconTime) then
      IconHookResult(Some(simplecacheUrl(NeverUploadedPath(size))), [])
    else
      match fileExists(IconFile(user, size))
      case Ok(true) =>
        IconDirectUrlRoundTrip(user.iconTime.value, user.guid, size);
        IconHookResult(Some(IconDirectUrl(user.iconTime.value, user.guid, size)), [])
      case Ok(false) =>
        IconHookResult(None, [])
      case Err(_) =>
        IconHookResult(Some(simplecacheUrl(BrokenIconPath(size))), [LogEntry(IconErrorMessage(user.guid), ErrorLevel)])
  }

  /** The plugin hook chain: a handler that returns nothing keeps the URL it was given. */
  function EffectiveIconUrl(url: Option<string>, r: IconHookResult): Option<string> {
    if r.url.Some? then r.url else url
  }

  /** With an override in place the URL stays as it was, whatever the icon time and storage say. */
  lemma OverrideWins(url: Option<string>, user: User, size: string,
                     fileExists: FileRef -> Result<bool, StorageError>, simplecacheUrl: string -> string)
    requires Truthy(url)
    ensures EffectiveIconUrl(url, ProfileSetIconUrl(url, user, size, fileExists, simplecacheUrl)) == url
  {
  }

  /** Without an icon time the result does not depend on storage at all. */
  lemma StorageNotConsultedWithoutIconTime(url: Option<string>, user: User, size: string,
                                           exists1: FileRef -> Result<bool, StorageError>,
                                           exists2: FileRef -> Result<bool, StorageError>,
                                           simplecacheUrl: string -> string)
    requires !IconTimeSet(user.iconTime)
    ensures ProfileSetIconUrl(url, user, size, exists1, simplecacheUrl)
            == ProfileSetIconUrl(url, user, size, exists2, simplecacheUrl)
  {
  }
}

/**
 * The `entity:url` handler for users (profile_set_url), and `Explode`, this
 * model's stand-in for the host's split of a request path into the page
 * handler's name and its URL segments.
 */
module ProfileUrl {
  import opened Entities

  const ProfileHandler := "profile"

  /**
   * profile_set_url: the URL of a user is "profile/" followed by the username,
   * whatever URL an earlier handler proposed.
   */
  function ProfileSetUrl(url: string, user: User): (r: string)
    ensures |r| == |ProfileHandler| + 1 + |user.username|
    ensures r[..|ProfileHandler|] == ProfileHandler && r[|ProfileHandler|] == '/'
    ensures r[|ProfileHandler| + 1..] == user.username
  {
    ProfileHandler + "/" + user.username
  }

  /** PHP's explode('/', s): the pieces of s between slashes, in order. */
  function Explode(s: string): (parts: seq<string>)
    ensures |parts| > 0
    decreases |s|
  {
    if s == [] then [""]
    else if s[0] == '/' then [""] + Explode(s[1..])
    else
      var rest := Explode(s[1..]);
      [[s[0]] + rest[0]] + rest[1..]
  }

  /** A piece with no slash, then a slash: the piece is the first part. */
  lemma {:induction false} ExplodeCons(a: string, b: string)
    requires '/' !in a
    ensures Explode(a + "/" + b) == [a] + Explode(b)
  {
    if a == [] {
      assert a + "/" + b == "/" + b;
      assert ("/" + b)[1..] == b;
    } else {
      assert (a + "/" + b)[1..] == a[1..] + "/" + b;
      ExplodeCons(a[1..], b);
      assert [a[0]] + a[1..] == a;
    }
  }

  /** A string with no slash explodes into itself alone. */
  lemma {:induction false} ExplodeNoSlash(s: string)
    requires '/' !in s
    ensures Explode(s) == [s]
  {
    if s != [] {
      ExplodeNoSlash(s[1..]);
      assert [s[0]] + s[1..] == s;
    }
  }

  /**
   * A user URL, split into segments by `Explode`, names the profile page handler
   * and passes it the username as its only segment.
   */
  lemma ProfileSetUrlRoutesBack(url: string, user: User)
    requires '/' !in user.username
    ensures Explode(ProfileSetUrl(url, user)) == [ProfileHandler, user.username]
  {
    ExplodeCons(ProfileHandler, user.username);
    ExplodeNoSlash(user.username);
  }
}

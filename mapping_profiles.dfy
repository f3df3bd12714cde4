/** The map rules of Application/Core/MappingProfiles.cs. Every rule is a
    pure projection of an entity value. The `currentUsername` captured by the
    profile (`null` unless the projection supplies a value) is the
    explicit `viewer` argument here; `None` stands for `null`. Members that
    the rules do not name are copied unchanged, as AutoMapper does with
    same-named members. */
module MappingProfiles {
  import opened Wrappers
  import opened Entities
  import opened Dtos

  // ---------------------------------------------------------------------
  // Host resolution: Attendees.FirstOrDefault(x => x.IsHost).User.UserName

  /** `i` is the position of the first attendee flagged as host. */
  ghost predicate IsFirstHost(attendees: seq<ActivityAttendee>, i: int)
  {
    0 <= i < |attendees| && attendees[i].isHost &&
    forall j :: 0 <= j < i ==> !attendees[j].isHost
  }

  /** `h` is the username of the first host, in attendee order, and is
      absent exactly when no attendee is host. */
  ghost predicate IsHostUsername(attendees: seq<ActivityAttendee>, h: Option<string>)
  {
    && (h.None? <==> forall i :: 0 <= i < |attendees| ==> !attendees[i].isHost)
    && forall i :: IsFirstHost(attendees, i) ==> h == Some(attendees[i].user.userName)
  }

  function HostUsername(attendees: seq<ActivityAttendee>): (r: Option<string>)
    ensures IsHostUsername(attendees, r)
  {
    if attendees == [] then None
    else if attendees[0].isHost then Some(attendees[0].user.userName)
    else
      var r := HostUsername(attendees[1..]);
      assert forall i :: IsFirstHost(attendees, i) ==> IsFirstHost(attendees[1..], i - 1);
      r
  }

  /** Some host at all means there is a first one. */
  lemma {:induction false} FirstHostExists(attendees: seq<ActivityAttendee>, k: int)
    requires 0 <= k < |attendees| && attendees[k].isHost
    ensures exists i :: IsFirstHost(attendees, i)
    decreases k
  {
    if exists j :: 0 <= j < k && attendees[j].isHost {
      var j :| 0 <= j < k && attendees[j].isHost;
      FirstHostExists(attendees, j);
    } else {
      assert IsFirstHost(attendees, k);
    }
  }

  /** The host rule leaves no choice: at most one value satisfies it. */
  lemma HostUsernameDetermined(attendees: seq<ActivityAttendee>, h1: Option<string>, h2: Option<string>)
    requires IsHostUsername(attendees, h1) && IsHostUsername(attendees, h2)
    ensures h1 == h2
  {
    if h1.Some? {
      var k :| 0 <= k < |attendees| && attendees[k].isHost;
      FirstHostExists(attendees, k);
    }
  }

  /** With exactly one attendee flagged host, the host is that attendee. */
  lemma SoleHost(a: Activity, k: int, viewer: Option<string>)
    requires 0 <= k < |a.attendees| && a.attendees[k].isHost
    requires forall j :: 0 <= j < |a.attendees| && j != k ==> !a.attendees[j].isHost
    ensures ToActivityDto(a, viewer).hostUsername == Some(a.attendees[k].user.userName)
  {
    assert IsFirstHost(a.attendees, k);
  }

  // ---------------------------------------------------------------------
  // Main photo: Photos.FirstOrDefault(p => p.IsMain).Url

  /** `i` is the position of the first photo flagged as main. */
  ghost predicate IsFirstMain(photos: seq<Photo>, i: int)
  {
    0 <= i < |photos| && photos[i].isMain &&
    forall j :: 0 <= j < i ==> !photos[j].isMain
  }

  /** `u` is the url of the first main photo and is absent exactly when no
      photo is main; no default image is supplied. */
  ghost predicate IsMainPhotoUrl(photos: seq<Photo>, u: Option<string>)
  {
    && (u.None? <==> forall i :: 0 <= i < |photos| ==> !photos[i].isMain)
    && forall i :: IsFirstMain(photos, i) ==> u == Some(photos[i].url)
  }

  function MainPhotoUrl(photos: seq<Photo>): (r: Option<string>)
    ensures IsMainPhotoUrl(photos, r)
  {
    if photos == [] then None
    else if photos[0].isMain then Some(photos[0].url)
    else
      var r := MainPhotoUrl(photos[1..]);
      assert forall i :: IsFirstMain(photos, i) ==> IsFirstMain(photos[1..], i - 1);
      r
  }

  lemma {:induction false} FirstMainExists(photos: seq<Photo>, k: int)
    requires 0 <= k < |photos| && photos[k].isMain
    ensures exists i :: IsFirstMain(photos, i)
    decreases k
  {
    if exists j :: 0 <= j < k && photos[j].isMain {
      var j :| 0 <= j < k && photos[j].isMain;
      FirstMainExists(photos, j);
    } else {
      assert IsFirstMain(photos, k);
    }
  }

  lemma MainPhotoUrlDetermined(photos: seq<Photo>, u1: Option<string>, u2: Option<string>)
    requires IsMainPhotoUrl(photos, u1) && IsMainPhotoUrl(photos, u2)
    ensures u1 == u2
  {
    if u1.Some? {
      var k :| 0 <= k < |photos| && photos[k].isMain;
      FirstMainExists(photos, k);
    }
  }

  // ---------------------------------------------------------------------
  // Following flag: Followers.Any(f => f.Observer.UserName == currentUsername)

  /** Some follow edge of the subject has the viewer as its observer. */
  ghost predicate ViewerIsFollower(followers: seq<UserFollowing>, viewer: Option<string>)
  {
    exists i :: 0 <= i < |followers| && viewer == Some(followers[i].observerUserName)
  }

  function IsFollowing(followers: seq<UserFollowing>, viewer: Option<string>): (r: bool)
    ensures r <==> ViewerIsFollower(followers, viewer)
    ensures followers == [] ==> !r
    ensures viewer.None? ==> !r
  {
    if followers == [] then false
    else if viewer == Some(followers[0].observerUserName) then true
    else
      var r := IsFollowing(followers[1..], viewer);
      assert ViewerIsFollower(followers, viewer) ==> ViewerIsFollower(followers[1..], viewer) by {
        if ViewerIsFollower(followers, viewer) {
          var i :| 0 <= i < |followers| && viewer == Some(followers[i].observerUserName);
          assert followers[1..][i - 1] == followers[i];
        }
      }
      r
  }

  // ---------------------------------------------------------------------
  // The maps

  /** CreateMap<Activity, Activity>: mapping an activity onto an existing
      one overwrites every member of the destination with the source's. */
  function MapActivityOnto(source: Activity, destination: Activity): (r: Activity)
    ensures r.id == source.id && r.title == source.title && r.date == source.date
    ensures r.description == source.description && r.category == source.category
    ensures r.city == source.city && r.venue == source.venue
    ensures r.isCancelled == source.isCancelled && r.attendees == source.attendees
  {
    source
  }

  function ToAttendeeDto(s: ActivityAttendee, viewer: Option<string>): (r: AttendeeDto)
    ensures r.displayName == s.user.displayName
    ensures r.username == s.user.userName
    ensures r.bio == s.user.bio
    ensures IsMainPhotoUrl(s.user.photos, r.image)
    ensures r.followersCount == |s.user.followers| && r.followingCount == |s.user.followings|
    ensures r.following <==> ViewerIsFollower(s.user.followers, viewer)
  {
    AttendeeDto(
      username := s.user.userName,
      displayName := s.user.displayName,
      bio := s.user.bio,
      image := MainPhotoUrl(s.user.photos),
      followersCount := |s.user.followers|,
      followingCount := |s.user.followings|,
      following := IsFollowing(s.user.followers, viewer))
  }

  /** The attendee list is mapped element by element, in order, through the
      attendee map. */
  function ToActivityDto(s: Activity, viewer: Option<string>): (r: ActivityDto)
    ensures IsHostUsername(s.attendees, r.hostUsername)
    ensures r.id == s.id && r.title == s.title && r.date == s.date
    ensures r.description == s.description && r.category == s.category
    ensures r.city == s.city && r.venue == s.venue && r.isCancelled == s.isCancelled
    ensures |r.attendees| == |s.attendees|
    ensures forall i :: 0 <= i < |s.attendees| ==> r.attendees[i] == ToAttendeeDto(s.attendees[i], viewer)
  {
    ActivityDto(
      id := s.id,
      title := s.title,
      date := s.date,
      description := s.description,
      category := s.category,
      city := s.city,
      venue := s.venue,
      isCancelled := s.isCancelled,
      hostUsername := HostUsername(s.attendees),
      attendees := seq(|s.attendees|, i requires 0 <= i < |s.attendees| => ToAttendeeDto(s.attendees[i], viewer)))
  }

  function ToUserActivityDto(s: Attendance): (r: UserActivityDto)
    ensures r.id == s.activity.id && r.title == s.activity.title
    ensures r.category == s.activity.category && r.date == s.activity.date
    ensures r.isCancelled == s.activity.isCancelled
    ensures IsHostUsername(s.activity.attendees, r.hostUsername)
  {
    UserActivityDto(
      id := s.activity.id,
      title := s.activity.title,
      category := s.activity.category,
      date := s.activity.date,
      isCancelled := s.activity.isCancelled,
      hostUsername := HostUsername(s.activity.attendees))
  }

  function ToProfile(s: User, viewer: Option<string>): (r: Profile)
    ensures r.username == s.userName && r.displayName == s.displayName && r.bio == s.bio
    ensures IsMainPhotoUrl(s.photos, r.image)
    ensures r.followersCount == |s.followers| && r.followingCount == |s.followings|
    ensures r.following <==> ViewerIsFollower(s.followers, viewer)
  {
    Profile(
      username := s.userName,
      displayName := s.displayName,
      bio := s.bio,
      image := MainPhotoUrl(s.photos),
      followersCount := |s.followers|,
      followingCount := |s.followings|,
      following := IsFollowing(s.followers, viewer))
  }

  function ToCommentDto(s: Comment): (r: CommentDto)
    ensures r.id == s.id && r.createdAt == s.createdAt && r.body == s.body
    ensures r.displayName == s.author.displayName && r.username == s.author.userName
    ensures IsMainPhotoUrl(s.author.photos, r.image)
  {
    CommentDto(
      id := s.id,
      createdAt := s.createdAt,
      body := s.body,
      username := s.author.userName,
      displayName := s.author.displayName,
      image := MainPhotoUrl(s.author.photos))
  }

  // ---------------------------------------------------------------------
  // Properties relating the maps

  /** An activity listed on a user's profile names the same host as the
      activity's own DTO does, whoever the viewer is. */
  lemma UserActivityHostAgrees(s: Attendance, viewer: Option<string>)
    ensures ToUserActivityDto(s).hostUsername == ToActivityDto(s.activity, viewer).hostUsername
  {
    HostUsernameDetermined(s.activity.attendees, ToUserActivityDto(s).hostUsername,
                           ToActivityDto(s.activity, viewer).hostUsername);
  }

  /** An attendee is projected exactly as its user's profile is: the same
      image, counts and following flag. */
  lemma AttendeeAgreesWithProfile(s: ActivityAttendee, viewer: Option<string>)
    ensures var d, p := ToAttendeeDto(s, viewer), ToProfile(s.user, viewer);
      d.username == p.username && d.displayName == p.displayName && d.bio == p.bio &&
      d.image == p.image && d.followersCount == p.followersCount &&
      d.followingCount == p.followingCount && d.following == p.following
  {
    var d, p := ToAttendeeDto(s, viewer), ToProfile(s.user, viewer);
    MainPhotoUrlDetermined(s.user.photos, d.image, p.image);
  }

  /** The viewer influences the `following` flag and nothing else. */
  lemma ViewerOnlyAffectsFollowing(u: User, v1: Option<string>, v2: Option<string>)
    ensures ToProfile(u, v1).(following := false) == ToProfile(u, v2).(following := false)
  {
    MainPhotoUrlDetermined(u.photos, ToProfile(u, v1).image, ToProfile(u, v2).image);
  }

  /** A comment shows its author with the author's profile image. */
  lemma CommentAgreesWithProfile(c: Comment, viewer: Option<string>)
    ensures ToCommentDto(c).username == ToProfile(c.author, viewer).username
    ensures ToCommentDto(c).displayName == ToProfile(c.author, viewer).displayName
    ensures ToCommentDto(c).image == ToProfile(c.author, viewer).image
  {
    MainPhotoUrlDetermined(c.author.photos, ToCommentDto(c).image, ToProfile(c.author, viewer).image);
  }

  /** With the profile's default viewer (`null`) nobody is reported as
      followed, and a user without followers is followed by no viewer. */
  lemma DefaultViewerFollowsNobody(u: User, viewer: Option<string>)
    ensures !ToProfile(u, None).following
    ensures u.followers == [] ==> !ToProfile(u, viewer).following
  {
  }
}

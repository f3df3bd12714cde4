/** The domain entities the mapping profile reads (Domain.Entities), as
    immutable values. The object graph of the source is cyclic (a user's
    attendance points back at its activity, a follow edge points at two
    users); a value cannot be, so the back-edges are cut: a follow edge keeps
    the usernames of its two ends, and an attendance seen from the user's
    side is paired with its activity in `Attendance`. */
module Entities {
  import opened Wrappers

  datatype Photo = Photo(id: string, url: string, isMain: bool)

  /** One "Observer follows Target" edge. */
  datatype UserFollowing = UserFollowing(observerUserName: string, targetUserName: string)

  datatype User = User(
    id: string,
    userName: string,
    displayName: string,
    bio: Option<string>,
    photos: seq<Photo>,
    followings: seq<UserFollowing>,  // edges in which this user is the observer
    followers: seq<UserFollowing>)   // edges in which this user is the target

  /** An element of `Activity.Attendees`: the join of a user and an activity. */
  datatype ActivityAttendee = ActivityAttendee(user: User, isHost: bool)

  /** `date` is the activity's timestamp, taken as an opaque number. */
  datatype Activity = Activity(
    id: string,
    title: string,
    date: int,
    description: string,
    category: string,
    city: string,
    venue: string,
    isCancelled: bool,
    attendees: seq<ActivityAttendee>)

  /** An ActivityAttendee reached from its user, with its `Activity`
      navigation property. */
  datatype Attendance = Attendance(attendee: ActivityAttendee, activity: Activity)

  datatype Comment = Comment(id: int, body: string, author: User, createdAt: int)
}

/** The transport records the mapping profile produces (Application.DTOs and
    Application.Profiles.Profile). An absent (null) string is `None`. */
module Dtos {
  import opened Wrappers

  datatype AttendeeDto = AttendeeDto(
    username: string,
    displayName: string,
    bio: Option<string>,
    image: Option<string>,
    followersCount: nat,
    followingCount: nat,
    following: bool)

  datatype ActivityDto = ActivityDto(
    id: string,
    title: string,
    date: int,
    description: string,
    category: string,
    city: string,
    venue: string,
    isCancelled: bool,
    hostUsername: Option<string>,
    attendees: seq<AttendeeDto>)

  datatype UserActivityDto = UserActivityDto(
    id: string,
    title: string,
    category: string,
    date: int,
    isCancelled: bool,
    hostUsername: Option<string>)

  datatype Profile = Profile(
    username: string,
    displayName: string,
    bio: Option<string>,
    image: Option<string>,
    followersCount: nat,
    followingCount: nat,
    following: bool)

  datatype CommentDto = CommentDto(
    id: int,
    createdAt: int,
    body: string,
    username: string,
    displayName: string,
    image: Option<string>)
}

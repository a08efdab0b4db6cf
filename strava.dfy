/** The records the activity-tracker collaborator hands to the dashboard. */
module Strava {
  import opened JsonValues

  /** One endurance activity; distance in meters, moving time in seconds. */
  datatype StravaActivity = StravaActivity(
    id: int,
    name: string,
    activityType: string,
    startDate: string,
    distance: real,
    movingTime: real,
    totalElevationGain: real)

  /** The credential triple returned by the token exchange and refresh calls. */
  datatype TokenData = TokenData(accessToken: string, refreshToken: string, expiresAt: int)

  /** The value `JSON.stringify` is given when the activity list is persisted. */
  function ActivitiesToJson(activities: seq<StravaActivity>): Json {
    Arr(seq(|activities|, i requires 0 <= i < |activities| =>
      var a := activities[i];
      Obj(map[
        "id" := Num(a.id as real),
        "name" := Str(a.name),
        "type" := Str(a.activityType),
        "start_date" := Str(a.startDate),
        "distance" := Num(a.distance),
        "moving_time" := Num(a.movingTime),
        "total_elevation_gain" := Num(a.totalElevationGain)])))
  }
}

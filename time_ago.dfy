/**
 * The relative "last update" text both the chain widget and the dashboard header show:
 * "Never" for an unset (zero) timestamp, otherwise whole seconds under a minute, whole
 * minutes under an hour, and whole hours beyond. The number is what the text displays;
 * string formatting is not modelled.
 */
module TimeAgo {

  datatype Ago = Never | SecondsAgo(n: int) | MinutesAgo(n: int) | HoursAgo(n: int)

  /**
   * The text for a timestamp `stamp` read at clock `now`. Each unit's count is the floor
   * of the elapsed time in that unit; a clock behind the stamp (negative difference) is not
   * guarded and yields a negative number of seconds.
   */
  function Describe(stamp: int, now: int): (r: Ago)
    ensures r.Never? <==> stamp == 0
    ensures stamp != 0 && now - stamp < 60000 ==>
      r.SecondsAgo? && r.n * 1000 <= now - stamp < (r.n + 1) * 1000
    ensures stamp != 0 && 60000 <= now - stamp < 3600000 ==>
      r.MinutesAgo? && 1 <= r.n < 60 && r.n * 60000 <= now - stamp < (r.n + 1) * 60000
    ensures stamp != 0 && 3600000 <= now - stamp ==>
      r.HoursAgo? && 1 <= r.n && r.n * 3600000 <= now - stamp < (r.n + 1) * 3600000
    ensures stamp != 0 && now - stamp < 0 ==> r.SecondsAgo? && r.n < 0
  {
    if stamp == 0 then Never
    else
      var diff := now - stamp;
      if diff < 60000 then SecondsAgo(diff / 1000)
      else if diff < 3600000 then MinutesAgo(diff / 60000)
      else HoursAgo(diff / 3600000)
  }
}

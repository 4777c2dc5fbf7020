/** The two tables of stored documents: one row per (channel, platform version) for the public
    catalogue, one per (platform id, channel, platform version) for private ones. */
module Caching {
  import opened Basics
  import opened Tables
  import opened Wire
  import opened Review

  const DEFAULT_PLATFORM := "1.0.0"

  /** A caller that does not say which platform it runs is taken for the oldest one supported. */
  function PlatformOf(platform: string): string { if platform == "" then DEFAULT_PLATFORM else platform }

  /** What the endpoint lets through: a parameter is missing, or is one it understands. */
  predicate WellFormed(rules: Rules, channel: string, platform: string)
  {
    (platform != "" ==> rules.platform(platform).Some?) && (channel != "" ==> KnownChannel(channel))
  }

  datatype Row<T> = Row(answer: T, builtAt: Time)

  /** Rows a channel of the public cache keeps. */
  const MAX_ROWS: nat := 64

  function OfChannel<T>(rows: map<(string, string), Row<T>>, channel: string): set<(string, string)>
  {
    set k | k in rows && k.0 == channel
  }

  /** DELETE ... NOT IN (the newest 64 of the channel); which of several rows built at the same
      moment are kept is the database's choice. */
  ghost predicate PrunedTo<T(!new)>(before: map<(string, string), Row<T>>, after: map<(string, string), Row<T>>, channel: string)
  {
    && (forall k :: k in after ==> k in before && after[k] == before[k])
    && (forall k :: k in before && k.0 != channel ==> k in after)
    && |OfChannel(after, channel)| == (if |OfChannel(before, channel)| < MAX_ROWS then |OfChannel(before, channel)| else MAX_ROWS)
    && (forall k, d :: k in OfChannel(after, channel) && d in OfChannel(before, channel) && d !in after ==> before[d].builtAt <= before[k].builtAt)
  }

  function WithoutPlatform<T>(rows: map<(string, string, string), Row<T>>, id: string): map<(string, string, string), Row<T>>
  {
    map k | k in rows && k.0 != id :: rows[k]
  }
}

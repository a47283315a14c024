/** The records of internal/session/model.go and what the two stores do to them. */
module Model {

  datatype Option<+T> = None | Some(value: T)

  const StatusPlaying := "playing"
  const StatusPaused := "paused"

  /** PlaybackSession by value. `stamp` is UpdatedAt in nanoseconds since 0000-01-01T00:00:00Z. */
  datatype Session = Session(user: string, track: string, position: int,
                             status: string, device: string, stamp: int)

  /** Requests as the handlers pass them on, already validated (see `Validated`). */
  datatype Op =
    | Start(user: string, track: string, position: int, device: string)
    | Heartbeat(user: string, track: string, position: int, device: string)
    | Pause(user: string, device: string)
    | Resume(user: string, device: string)
    | GetCurrent(user: string)

  predicate Validated(op: Op) {
    && op.user != ""
    && (op.GetCurrent? || op.device != "")
    && (op.Start? || op.Heartbeat? ==> op.track != "")
    && (op.Heartbeat? ==> op.position >= 0)
  }

  /** The session that Start and Heartbeat build from their request. */
  function Fresh(op: Op, now: int): Session
    requires op.Start? || op.Heartbeat?
  {
    Session(op.user, op.track, op.position, StatusPlaying, op.device, now)
  }

  const SECOND: int := 1_000_000_000
  const CACHE_TTL: int := 24 * 3600 * SECOND

  /** Instants of the years 0 to 9999, the only ones Go's time.Time marshals to JSON. */
  const YEAR_10000: int := 3_652_425 * 86_400 * SECOND

  predicate Encodable(t: int) {
    0 <= t < YEAR_10000
  }

  /** TIMESTAMPTZ keeps microseconds; pgx truncates towards the past. */
  function Micro(t: int): (m: int)
    ensures m % 1000 == 0 && m <= t < m + 1000
  {
    t - t % 1000
  }

  /** The row that an upsert of `s` leaves in the table. */
  function Stored(s: Session): Session {
    s.(stamp := Micro(s.stamp))
  }

  /** The position column is a 32-bit INTEGER; other positions make the upsert fail. */
  predicate Fits(s: Session) {
    -0x8000_0000 <= s.position <= 0x7fff_ffff
  }
}

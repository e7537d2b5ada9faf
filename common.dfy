/**
 * Identifiers and the Option wrapper shared by every part of the model.
 *
 * Discord snowflakes are non-negative integers; the bot turns them into
 * decimal text (`str(id)`) for its database columns and back (`int(text)`).
 */
module Common {

  /** A value that may be absent (Python's `None`, a missing row, a lookup that raised). */
  datatype Option<+T> = None | Some(value: T)

  type UserId = nat
  type GuildId = nat
  type ChannelId = nat
  type MessageId = nat

  /** A point in time as `discord.utils.utcnow()` gives it, in microseconds. */
  type Instant = nat

  const MicrosPerSecond: nat := 1000000
}

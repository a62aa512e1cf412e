/** What the bot sees of the chat platform's users: identifiers are opaque
    strings ("snowflakes"); a guild member carries the set of role ids it
    holds, which the bot may grow or shrink. */
module Platform {

  type Snowflake = string

  /** A guild member as fetched for the acting user of an event. */
  class Member {
    const userId: Snowflake
    const username: string
    /** Whether the account is an automated (bot) account. */
    const bot: bool
    var roles: set<Snowflake>

    constructor (userId: Snowflake, username: string, bot: bool, roles: set<Snowflake>)
      ensures this.userId == userId && this.username == username && this.bot == bot
      ensures this.roles == roles
    {
      this.userId := userId;
      this.username := username;
      this.bot := bot;
      this.roles := roles;
    }
  }
}

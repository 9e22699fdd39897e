/**
 * The registry of conversations (src/main.rs:176-253, 314-323): one `ChatHistory` per chat
 * medium, where a medium is a direct-message channel or a channel of a guild, and every lookup
 * goes by the channel alone.
 */
module Registry {
  import opened Wrappers
  import opened ChatState
  import opened ChatHistories

  type ChannelId = nat
  type GuildId = nat

  datatype ChatMedium = Channel(channel: ChannelId) | Guild(guild: GuildId, channel: ChannelId)
  {
    /** `is_channel` (src/main.rs:183-190): both kinds of medium are matched by their channel. */
    predicate IsChannel(id: ChannelId)
    {
      match this
      case Channel(c) => id == c
      case Guild(_, c) => id == c
    }
  }

  /** The medium of a message: its guild's channel when it came from a guild, else its channel. */
  function MediumFor(guild: Option<GuildId>, channel: ChannelId): (m: ChatMedium)
    ensures m.IsChannel(channel)
    ensures guild.Some? <==> m.Guild?
    ensures guild.Some? ==> m.guild == guild.value
  {
    match guild
    case Some(g) => Guild(g, channel)
    case None => Channel(channel)
  }

  /** Two media are told apart by lookups exactly when their channels differ. */
  lemma IsChannelExactly(m: ChatMedium, id: ChannelId)
    ensures m.IsChannel(id) <==> id == m.channel
  {
    match m
    case Channel(c) =>
    case Guild(_, c) =>
  }

  class HistoryMap {
    var histories: map<ChatMedium, ChatHistory>

    constructor()
      ensures histories == map[]
    {
      histories := map[];
    }

    /** Some medium in the map is matched by `channel`. */
    ghost predicate Known(channel: ChannelId)
      reads this
    {
      exists m :: m in histories && m.IsChannel(channel)
    }

    /** `contains_medium` (src/main.rs:238-241): whether any key is matched by the channel. */
    method ContainsMedium(channel: ChannelId) returns (b: bool)
      ensures b <==> exists m :: m in histories && m.IsChannel(channel)
    {
      var unvisited := histories.Keys;
      b := false;
      while unvisited != {} && !b
        invariant unvisited <= histories.Keys
        invariant !b ==> forall m :: m in histories && m !in unvisited ==> !m.IsChannel(channel)
        invariant b ==> exists m :: m in histories && m.IsChannel(channel)
        decreases unvisited
      {
        var m :| m in unvisited;
        b := m.IsChannel(channel);
        unvisited := unvisited - {m};
      }
    }

    /**
     * `create_from_initial_message` (src/main.rs:243-252): a fresh conversation under the
     * message's medium, replacing whatever was stored under that same key.
     */
    method CreateFromInitialMessage(guild: Option<GuildId>, channel: ChannelId, isPrivate: bool)
      modifies this
      ensures MediumFor(guild, channel) in histories
      ensures histories == old(histories)[MediumFor(guild, channel) := histories[MediumFor(guild, channel)]]
      ensures fresh(histories[MediumFor(guild, channel)])
      ensures histories[MediumFor(guild, channel)].State() == NewChat(isPrivate)
    {
      var history := new ChatHistory(isPrivate);
      histories := histories[MediumFor(guild, channel) := history];
    }

    /**
     * The handler's `iter_mut().find(..)` (src/main.rs:318-322): the conversation of some medium
     * matched by the channel, if there is one.
     */
    method Find(channel: ChannelId) returns (found: Option<ChatHistory>)
      ensures found.None? <==> !exists m :: m in histories && m.IsChannel(channel)
      ensures found.Some? ==> exists m :: m in histories && m.IsChannel(channel) && histories[m] == found.value
    {
      var unvisited := histories.Keys;
      found := None;
      while unvisited != {} && found.None?
        invariant unvisited <= histories.Keys
        invariant found.None? ==> forall m :: m in histories && m !in unvisited ==> !m.IsChannel(channel)
        invariant found.Some? ==> exists m :: m in histories && m.IsChannel(channel) && histories[m] == found.value
        decreases unvisited
      {
        var m :| m in unvisited;
        if m.IsChannel(channel) {
          found := Some(histories[m]);
        }
        unvisited := unvisited - {m};
      }
    }

    /**
     * The handler's lookup (src/main.rs:314-323): create the medium's conversation when no key
     * matches the channel, then find it. The `unwrap` cannot fail: afterwards a key matches.
     * A known channel leaves the map as it was; an unknown one gains exactly one fresh entry.
     */
    method Resolve(guild: Option<GuildId>, channel: ChannelId, isPrivate: bool) returns (history: ChatHistory)
      modifies this
      ensures exists m :: m in histories && m.IsChannel(channel) && histories[m] == history
      ensures old(Known(channel)) ==> histories == old(histories)
      ensures !old(Known(channel)) ==>
        && histories == old(histories)[MediumFor(guild, channel) := history]
        && fresh(history) && history.State() == NewChat(isPrivate)
    {
      var present := ContainsMedium(channel);
      if !present {
        CreateFromInitialMessage(guild, channel, isPrivate);
        forall m | m in histories && m.IsChannel(channel)
          ensures m == MediumFor(guild, channel)
        {
        }
      }
      var found := Find(channel);
      history := found.value;
    }
  }
}

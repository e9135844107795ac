/**
  Classification of a WhatsApp chat as personal (one-to-one) or not
  (group, channel a.k.a. newsletter, community).
 */
module Filters {
  import opened Wrappers
  import opened Js

  /** The chat's `id` object: its routing `server` suffix and serialized form. */
  datatype ChatId = ChatId(server: Value, serialized: Value)

  /** A chat descriptor: the three classification flags may hold any value or be absent. */
  datatype Chat = Chat(isGroup: Value, isNewsletter: Value, isCommunity: Value, id: Option<ChatId>)

  /** The kinds of chats that are not personal. */
  datatype Kind = Group | Newsletter | Community

  /** `chat?.id?.server === name` */
  predicate ServerIs(chat: Option<Chat>, name: string) {
    chat.Some? && chat.value.id.Some? && chat.value.id.value.server == Str(name)
  }

  /** `Boolean(chat?.<flag>)` */
  predicate FlagSet(chat: Option<Chat>, k: Kind) {
    chat.Some? &&
    match k
    case Group => Truthy(chat.value.isGroup)
    case Newsletter => Truthy(chat.value.isNewsletter)
    case Community => Truthy(chat.value.isCommunity)
  }

  /** The server suffix that marks a chat of kind `k`. */
  function Suffix(k: Kind): string {
    match k
    case Group => "g.us"
    case Newsletter => "newsletter"
    case Community => "community"
  }

  /** The kinds a chat is marked with, by flag or by server suffix. */
  function Kinds(chat: Option<Chat>): set<Kind> {
    set k: Kind | k in {Group, Newsletter, Community} && (FlagSet(chat, k) || ServerIs(chat, Suffix(k)))
  }

  /**
    `isPersonalChat`: a chat is personal exactly when it is marked with no
    kind; each flag, when truthy, and each suffix, when matched, excludes it.
   */
  function IsPersonalChat(chat: Option<Chat>): (r: bool)
    ensures r <==> Kinds(chat) == {}
    ensures FlagSet(chat, Group) || ServerIs(chat, "g.us") ==> !r
    ensures FlagSet(chat, Newsletter) || ServerIs(chat, "newsletter") ==> !r
    ensures FlagSet(chat, Community) || ServerIs(chat, "community") ==> !r
    ensures chat.None? ==> r
  {
    var isGroup := FlagSet(chat, Group) || ServerIs(chat, "g.us");
    var isNewsletter := FlagSet(chat, Newsletter) || ServerIs(chat, "newsletter");
    var isCommunity := FlagSet(chat, Community) || ServerIs(chat, "community");
    assert isGroup ==> Group in Kinds(chat);
    assert isNewsletter ==> Newsletter in Kinds(chat);
    assert isCommunity ==> Community in Kinds(chat);
    !(isGroup || isNewsletter || isCommunity)
  }

  /** A chat whose flags are all falsy and whose server is none of the three suffixes is personal. */
  lemma PersonalWhenUnmarked(chat: Chat)
    requires !Truthy(chat.isGroup) && !Truthy(chat.isNewsletter) && !Truthy(chat.isCommunity)
    requires chat.id.None? || chat.id.value.server !in {Str("g.us"), Str("newsletter"), Str("community")}
    ensures IsPersonalChat(Some(chat))
  {
    assert Kinds(Some(chat)) == {};
  }
}

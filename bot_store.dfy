/** The bot registry (src/context/BotContext.tsx): a list of bots that
    `createBot`, `deleteBot` and `updateBot` replace and `getBot` searches. */
module Bots {
  import opened Common

  /** "Formal" | "Amigável" | "Divertido" */
  datatype Personality = Formal | Amigavel | Divertido

  /** "pt-BR" | "en-US" | "es-ES" */
  datatype Language = PtBR | EnUS | EsES

  /** "Rápido" | "Normal" | "Detalhado" */
  datatype ResponseTime = Rapido | Normal | Detalhado

  datatype KnowledgeSource = Files | Conversation | Websites

  datatype IntegrationType = WhatsApp | Telegram | Website

  datatype IntegrationStatus = Connected | Pending | Disconnected

  datatype AiModel = Gpt35Turbo | Gpt4 | Claude3 | GeminiPro

  datatype KnowledgeBase = KnowledgeBase(
    files: Option<seq<string>>,
    conversations: Option<seq<string>>,
    websites: Option<seq<string>>)

  datatype Stats = Stats(messages: int, users: int)

  /** A bot. `createdAt` is in milliseconds since the epoch. */
  datatype Bot = Bot(
    id: string,
    name: string,
    description: string,
    personality: Personality,
    createdAt: int,
    isActive: bool,
    stats: Stats,
    avatar: Option<string>,
    welcomeMessage: Option<string>,
    language: Option<Language>,
    responseTime: Option<ResponseTime>,
    knowledgeBase: Option<KnowledgeBase>,
    integrationType: Option<IntegrationType>,
    integrationStatus: Option<IntegrationStatus>,
    aiModel: Option<AiModel>,
    tags: Option<seq<string>>,
    ownerId: Option<string>)

  /** A `Partial<Bot>`: `None` means the key is absent. For an optional
      field, `Some(None)` is a key present with value `undefined`. */
  datatype BotPatch = BotPatch(
    id: Option<string>,
    name: Option<string>,
    description: Option<string>,
    personality: Option<Personality>,
    createdAt: Option<int>,
    isActive: Option<bool>,
    stats: Option<Stats>,
    avatar: Option<Option<string>>,
    welcomeMessage: Option<Option<string>>,
    language: Option<Option<Language>>,
    responseTime: Option<Option<ResponseTime>>,
    knowledgeBase: Option<Option<KnowledgeBase>>,
    integrationType: Option<Option<IntegrationType>>,
    integrationStatus: Option<Option<IntegrationStatus>>,
    aiModel: Option<Option<AiModel>>,
    tags: Option<Option<seq<string>>>,
    ownerId: Option<Option<string>>)

  const NoBotChanges := BotPatch(None, None, None, None, None, None, None, None, None, None, None,
                                 None, None, None, None, None, None)

  /** `BotCreationData`, the input of `createBot`. */
  datatype BotCreationData = BotCreationData(
    name: string,
    description: string,
    personality: Option<Personality>,
    knowledgeSource: Option<KnowledgeSource>,
    welcomeMessage: Option<string>,
    language: Option<Language>,
    responseTime: Option<ResponseTime>,
    avatar: Option<string>,
    aiModel: Option<AiModel>,
    tags: Option<seq<string>>)

  /** The demonstration bot the store starts with (created 2025-04-23). */
  const SeedBot := Bot("demo-bot-1", "Assistente de Vendas",
    "Um bot para ajudar com vendas e atendimento ao cliente", Amigavel, 1745366400000, true,
    Stats(245, 18), None, Some("Olá! Como posso ajudar com suas dúvidas sobre nossos produtos?"),
    Some(PtBR), Some(Normal), None, None, None, None, None, None)

  /** The welcome message a bot gets when none is supplied. */
  function DefaultWelcome(name: string): string
  {
    "Olá! Sou o " + name + ", como posso ajudar?"
  }

  /** The bot `createBot` builds from `data`, with the fresh `id` and the
      creation time `now`. An absent or empty welcome message and an absent
      personality, language or response time take their defaults. Only the
      fields listed in the source are copied: the knowledge source, AI model
      and tags of the creation data are dropped. */
  function NewBot(data: BotCreationData, id: string, now: int): Bot
  {
    Bot(id, data.name, data.description,
        if data.personality.Some? then data.personality.value else Amigavel,
        now, true, Stats(0, 0), data.avatar,
        Some(if data.welcomeMessage.Some? && data.welcomeMessage.value != "" then data.welcomeMessage.value
             else DefaultWelcome(data.name)),
        Some(if data.language.Some? then data.language.value else PtBR),
        Some(if data.responseTime.Some? then data.responseTime.value else Normal),
        None, None, None, None, None, None)
  }

  /** A new bot is active with zero messages and users, and takes the
      defaults "Amigável", the name greeting, "pt-BR" and "Normal" exactly
      where the creation data left them out. */
  lemma NewBotDefaults(data: BotCreationData, id: string, now: int)
    ensures var b := NewBot(data, id, now);
      && b.id == id && b.name == data.name && b.description == data.description && b.createdAt == now
      && b.isActive && b.stats == Stats(0, 0)
      && (data.personality.None? ==> b.personality == Amigavel)
      && (data.personality.Some? ==> b.personality == data.personality.value)
      && (data.welcomeMessage.None? || data.welcomeMessage == Some("") ==>
            b.welcomeMessage == Some("Olá! Sou o " + data.name + ", como posso ajudar?"))
      && (data.welcomeMessage.Some? && data.welcomeMessage != Some("") ==> b.welcomeMessage == data.welcomeMessage)
      && b.language == Some(if data.language.None? then PtBR else data.language.value)
      && b.responseTime == Some(if data.responseTime.None? then Normal else data.responseTime.value)
      && b.avatar == data.avatar
  {
  }

  /** `{ ...bot, ...data }`: a supplied field replaces, every other field is kept. */
  function MergeBot(b: Bot, p: BotPatch): Bot
  {
    Bot(Override(b.id, p.id), Override(b.name, p.name), Override(b.description, p.description),
        Override(b.personality, p.personality), Override(b.createdAt, p.createdAt),
        Override(b.isActive, p.isActive), Override(b.stats, p.stats), Override(b.avatar, p.avatar),
        Override(b.welcomeMessage, p.welcomeMessage), Override(b.language, p.language),
        Override(b.responseTime, p.responseTime), Override(b.knowledgeBase, p.knowledgeBase),
        Override(b.integrationType, p.integrationType), Override(b.integrationStatus, p.integrationStatus),
        Override(b.aiModel, p.aiModel), Override(b.tags, p.tags), Override(b.ownerId, p.ownerId))
  }

  /** Merging nothing keeps the bot; merging the same patch twice is merging it once. */
  lemma MergeBotLaws(b: Bot, p: BotPatch)
    ensures MergeBot(b, NoBotChanges) == b
    ensures MergeBot(MergeBot(b, p), p) == MergeBot(b, p)
  {
  }

  predicate HasBotId(id: string, b: Bot) { b.id == id }

  predicate HasOtherId(id: string, b: Bot) { b.id != id }

  /** The filter predicate of `deleteBot`. */
  function OtherThan(id: string): Bot -> bool
  {
    b => HasOtherId(id, b)
  }

  /** `bots.findIndex(bot => bot.id === id)`. */
  function BotIndex(bots: seq<Bot>, id: string): (r: Option<nat>)
    ensures r.Some? ==> r.value < |bots| && bots[r.value].id == id
    ensures r.Some? ==> forall j :: 0 <= j < r.value ==> bots[j].id != id
    ensures r.None? <==> forall j :: 0 <= j < |bots| ==> bots[j].id != id
  {
    FirstIndex(bots, b => HasBotId(id, b))
  }

  /** `bots.find(bot => bot.id === id)`: the first bot with this id. */
  function LookupBot(bots: seq<Bot>, id: string): (r: Option<Bot>)
    ensures r.None? <==> forall j :: 0 <= j < |bots| ==> bots[j].id != id
    ensures r.Some? ==> exists k :: 0 <= k < |bots| && bots[k] == r.value && r.value.id == id &&
                                    forall j :: 0 <= j < k ==> bots[j].id != id
  {
    match BotIndex(bots, id)
    case None => None
    case Some(i) => Some(bots[i])
  }

  /** `bots.filter(bot => bot.id !== id)`. */
  function WithoutBot(bots: seq<Bot>, id: string): seq<Bot>
  {
    Filter(bots, OtherThan(id))
  }

  /** Deleting removes every bot with the id and keeps every other bot, in
      order; with an unknown id the list is unchanged. */
  lemma WithoutBotSpec(bots: seq<Bot>, id: string)
    ensures forall k :: 0 <= k < |WithoutBot(bots, id)| ==> WithoutBot(bots, id)[k].id != id
    ensures forall k :: 0 <= k < |bots| && bots[k].id != id ==> bots[k] in WithoutBot(bots, id)
    ensures forall a, b :: WithoutBot(a + b, id) == WithoutBot(a, id) + WithoutBot(b, id)
    ensures (forall k :: 0 <= k < |bots| ==> bots[k].id != id) ==> WithoutBot(bots, id) == bots
    ensures LookupBot(WithoutBot(bots, id), id).None?
  {
    forall a, b ensures WithoutBot(a + b, id) == WithoutBot(a, id) + WithoutBot(b, id) {
      FilterAppend(a, b, OtherThan(id));
    }
    FilterKeepsAll(bots, OtherThan(id));
  }

  /** No two bots share an id. */
  ghost predicate DistinctIds(bots: seq<Bot>)
  {
    forall i, j :: 0 <= i < j < |bots| ==> bots[i].id != bots[j].id
  }

  /** The id of a bot created at time `now`. */
  function BotIdAt(now: int): string
  {
    "bot-" + IntToString(now)
  }

  /** Creating with a fresh id keeps ids distinct, and the new bot is what
      `getBot` finds under that id. */
  lemma CreatedBotIsFound(bots: seq<Bot>, b: Bot)
    requires forall k :: 0 <= k < |bots| ==> bots[k].id != b.id
    ensures DistinctIds(bots) ==> DistinctIds(bots + [b])
    ensures LookupBot(bots + [b], b.id) == Some(b)
  {
    var s := bots + [b];
    assert s[|bots|].id == b.id;
    var r := LookupBot(s, b.id);
    var k :| 0 <= k < |s| && s[k] == r.value && r.value.id == b.id && forall j :: 0 <= j < k ==> s[j].id != b.id;
    assert k == |bots|;
  }

  /** Ids come from the clock: two bots created in the same millisecond
      share an id, and `getBot` then only ever finds the first of them. */
  lemma SameMillisecondIdsCollide(bots: seq<Bot>, first: BotCreationData, second: BotCreationData, now: int)
    requires forall k :: 0 <= k < |bots| ==> bots[k].id != BotIdAt(now)
    ensures var s := bots + [NewBot(first, BotIdAt(now), now)] + [NewBot(second, BotIdAt(now), now)];
      !DistinctIds(s) && LookupBot(s, BotIdAt(now)) == Some(NewBot(first, BotIdAt(now), now))
  {
    var b := NewBot(first, BotIdAt(now), now);
    var s := bots + [b] + [NewBot(second, BotIdAt(now), now)];
    assert s[|bots|] == b && s[|bots| + 1].id == b.id;
    var r := LookupBot(s, b.id);
    var k :| 0 <= k < |s| && s[k] == r.value && r.value.id == b.id && forall j :: 0 <= j < k ==> s[j].id != b.id;
    assert k == |bots|;
  }

  /** Deleting keeps ids distinct. */
  lemma {:induction false} DeleteKeepsIdsDistinct(bots: seq<Bot>, id: string)
    requires DistinctIds(bots)
    ensures DistinctIds(WithoutBot(bots, id))
  {
    if bots != [] {
      var rest := bots[1..];
      assert DistinctIds(rest) by {
        forall i, j | 0 <= i < j < |rest| ensures rest[i].id != rest[j].id {
          assert rest[i] == bots[i + 1] && rest[j] == bots[j + 1];
        }
      }
      DeleteKeepsIdsDistinct(rest, id);
      if HasOtherId(id, bots[0]) {
        var w := WithoutBot(rest, id);
        assert WithoutBot(bots, id) == [bots[0]] + w;
        forall k | 0 <= k < |w| ensures w[k].id != bots[0].id {
          var m :| 0 <= m < |rest| && rest[m] == w[k];
          assert rest[m] == bots[m + 1];
        }
      } else {
        assert WithoutBot(bots, id) == WithoutBot(rest, id);
      }
    }
  }

  class BotStore {
    var bots: seq<Bot>

    /** The provider's initial state: the seed bot alone. */
    constructor ()
      ensures bots == [SeedBot] && |bots| == 1 && bots[0].id == "demo-bot-1"
    {
      bots := [SeedBot];
    }

    /** `getBot`: the first bot with this id, or nothing. */
    function GetBot(id: string): (r: Option<Bot>)
      reads this
      ensures r.None? <==> forall j :: 0 <= j < |bots| ==> bots[j].id != id
      ensures r.Some? ==> exists k :: 0 <= k < |bots| && bots[k] == r.value && r.value.id == id &&
                                      forall j :: 0 <= j < k ==> bots[j].id != id
    {
      LookupBot(bots, id)
    }

    /** `createBot` at time `now`: exactly one new bot, built from `data`
        with the id `BotIdAt(now)`, at the end. When no bot had that id yet,
        ids stay distinct and `getBot` finds the new bot under it. The app
        then always navigates to the dashboard, the route returned. */
    method CreateBot(data: BotCreationData, now: int) returns (goTo: string)
      modifies this
      ensures goTo == "/dashboard"
      ensures bots == old(bots) + [NewBot(data, BotIdAt(now), now)]
      ensures (forall k :: 0 <= k < |old(bots)| ==> old(bots)[k].id != BotIdAt(now)) ==>
        GetBot(BotIdAt(now)) == Some(NewBot(data, BotIdAt(now), now)) &&
        (DistinctIds(old(bots)) ==> DistinctIds(bots))
    {
      var b := NewBot(data, BotIdAt(now), now);
      if forall k :: 0 <= k < |bots| ==> bots[k].id != b.id {
        CreatedBotIsFound(bots, b);
      }
      bots := bots + [b];
      goTo := "/dashboard";
    }

    /** `deleteBot`: every bot with the id goes, the rest stay in order. */
    method DeleteBot(id: string)
      modifies this
      ensures bots == WithoutBot(old(bots), id)
      ensures GetBot(id).None?
      ensures DistinctIds(old(bots)) ==> DistinctIds(bots)
    {
      WithoutBotSpec(bots, id);
      assert DistinctIds(bots) ==> DistinctIds(WithoutBot(bots, id)) by {
        if DistinctIds(bots) {
          DeleteKeepsIdsDistinct(bots, id);
        }
      }
      bots := WithoutBot(bots, id);
    }

    /** `updateBot`: the supplied fields of the first bot with the id are
        replaced; length and every other bot stay as they were. An unknown id
        changes nothing and is reported as not found. */
    method UpdateBot(id: string, patch: BotPatch) returns (found: bool)
      modifies this
      ensures found <==> exists k :: 0 <= k < |old(bots)| && old(bots)[k].id == id
      ensures !found ==> bots == old(bots)
      ensures found ==>
        var i := BotIndex(old(bots), id).value;
        && |bots| == |old(bots)|
        && bots[i] == MergeBot(old(bots)[i], patch)
        && (forall k :: 0 <= k < |bots| && k != i ==> bots[k] == old(bots)[k])
    {
      var index := BotIndex(bots, id);
      if index.None? {
        found := false;
      } else {
        var i := index.value;
        bots := bots[i := MergeBot(bots[i], patch)];
        found := true;
      }
    }
  }
}

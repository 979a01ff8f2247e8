/**
 * The chat and suggestion panel of components/AIAssistant.tsx: the guard and the message-list
 * transitions of `handleSendMessage`, and the guard and the diagram context of
 * `handleGetSuggestions`. Each handler runs as one step whose server outcome is an input (`None`
 * for a failed request); the bodies it posts are logged. `new Date()` is a parameter.
 */
module AIAssistant {
  import opened Wrappers
  import opened Strings
  import opened Sequences

  datatype Role = UserRole | AssistantRole

  datatype Message = Message(role: Role, content: string, timestamp: int)

  datatype Tab = ChatTab | SuggestionsTab

  const Welcome: string :=
    "¡Hola! Soy tu asistente de IA para diagramas ER. Puedo ayudarte con:\n\n"
    + "• Sugerir relaciones entre entidades\n• Explicar conceptos de cardinalidad\n"
    + "• Validar tu modelo de datos\n• Responder preguntas sobre diseño de bases de datos\n\n"
    + "¿En qué puedo ayudarte?"

  const Fallback: string :=
    "Lo siento, no puedo conectarme al servidor en este momento. Por favor, verifica tu conexión a Internet."

  /** How many earlier messages go with a chat request. */
  const HistoryLength: nat := 10

  /** The body of a chat request. */
  datatype ChatRequest = ChatRequest(message: string, history: seq<Message>)

  /** The assistant's answer: the server's `response`, or the fixed apology when the request
      failed. */
  function ReplyText(reply: Option<string>): (t: string)
    ensures reply.Some? ==> t == reply.value
    ensures reply.None? ==> t == Fallback
  {
    reply.GetOr(Fallback)
  }

  // -----------------------------------------------------------------------------------------------
  // The diagram context

  datatype EntityAttribute = EntityAttribute(
    id: string, name: string, attrType: string,
    isPrimaryKey: bool, isForeignKey: bool, isRequired: bool)

  datatype Entity = Entity(id: string, name: string, attributes: seq<EntityAttribute>)

  datatype RelationshipData = RelationshipData(
    relType: string, sourceCardinality: string, targetCardinality: string)

  datatype Relationship = Relationship(source: string, target: string, data: RelationshipData)

  datatype ContextEntity = ContextEntity(name: string, attributes: seq<string>)

  datatype ContextRelationship = ContextRelationship(
    fromEntity: string, toEntity: string, cardinality: string, relType: string)

  datatype DiagramContext = DiagramContext(
    entities: seq<ContextEntity>, existingRelationships: seq<ContextRelationship>)

  datatype Suggestion = Suggestion(
    fromEntity: string, toEntity: string, cardinality: string, reason: string, confidence: real)

  const Unknown: string := "Unknown"

  function AttributeName(a: EntityAttribute): string {
    a.name
  }

  function Summary(e: Entity): ContextEntity {
    ContextEntity(e.name, Map(e.attributes, AttributeName))
  }

  function IdIs(id: string): Entity -> bool {
    (e: Entity) => e.id == id
  }

  /** `entities.find(e => e.id === id)?.name || 'Unknown'`. */
  function EntityName(entities: seq<Entity>, id: string): (n: string)
    ensures n != ""
    ensures (forall i :: 0 <= i < |entities| ==> entities[i].id != id) ==> n == Unknown
    ensures n != Unknown ==> exists i :: 0 <= i < |entities| && entities[i].id == id && entities[i].name == n
  {
    var found := Find(entities, IdIs(id));
    if found.Some? && found.value.name != "" then found.value.name else Unknown
  }

  function Describe(entities: seq<Entity>): Relationship -> ContextRelationship {
    (r: Relationship) =>
      ContextRelationship(
        EntityName(entities, r.source), EntityName(entities, r.target),
        r.data.sourceCardinality + ":" + r.data.targetCardinality, r.data.relType)
  }

  /** `diagramContext`. */
  function Context(entities: seq<Entity>, relationships: seq<Relationship>): DiagramContext {
    DiagramContext(Map(entities, Summary), Map(relationships, Describe(entities)))
  }

  /** One summary per entity, in order, with its name and the names of its attributes; one
      description per relationship, in order, naming its ends by the first entity with that id
      (or "Unknown"), with cardinality "source:target" and the type copied. */
  lemma ContextSpec(entities: seq<Entity>, relationships: seq<Relationship>)
    ensures var c := Context(entities, relationships);
      && |c.entities| == |entities|
      && (forall i :: 0 <= i < |entities| ==>
            c.entities[i].name == entities[i].name
            && |c.entities[i].attributes| == |entities[i].attributes|
            && forall j :: 0 <= j < |entities[i].attributes| ==>
                 c.entities[i].attributes[j] == entities[i].attributes[j].name)
      && |c.existingRelationships| == |relationships|
      && (forall i :: 0 <= i < |relationships| ==>
            var d := c.existingRelationships[i];
            && d.fromEntity == EntityName(entities, relationships[i].source)
            && d.toEntity == EntityName(entities, relationships[i].target)
            && d.cardinality == relationships[i].data.sourceCardinality + ":" + relationships[i].data.targetCardinality
            && d.relType == relationships[i].data.relType)
  {
    var c := Context(entities, relationships);
    forall i | 0 <= i < |entities|
      ensures c.entities[i] == Summary(entities[i])
    {
    }
  }

  /** An end is named after the first entity carrying its id, unless that entity's name is
      empty; a dangling id, or an entity with an empty name, reads as "Unknown". */
  lemma {:induction false} EntityNameSpec(entities: seq<Entity>, id: string, k: nat)
    requires k < |entities| && entities[k].id == id
    requires forall j :: 0 <= j < k ==> entities[j].id != id
    ensures EntityName(entities, id) == (if entities[k].name != "" then entities[k].name else Unknown)
  {
    var found := Find(entities, IdIs(id));
    var m :| 0 <= m < |entities| && entities[m] == found.value && forall j :: 0 <= j < m ==> !IdIs(id)(entities[j]);
    assert IdIs(id)(entities[m]);
    assert m == k;
  }

  // -----------------------------------------------------------------------------------------------
  // The panel

  ghost predicate Alternates(ms: seq<Message>) {
    && |ms| % 2 == 1
    && ms[0].role == AssistantRole && ms[0].content == Welcome
    && (forall i :: 0 < i < |ms| ==> (ms[i].role == UserRole <==> i % 2 == 1))
  }

  /** A question and its answer appended to an alternating chat keep it alternating. */
  lemma AppendExchange(ms: seq<Message>, question: Message, answer: Message)
    requires Alternates(ms) && question.role == UserRole && answer.role == AssistantRole
    ensures Alternates(ms + [question, answer])
  {
    var ns := ms + [question, answer];
    forall i | 0 < i < |ns| ensures (ns[i].role == UserRole <==> i % 2 == 1) {
      if i < |ms| {
        assert ns[i] == ms[i];
      } else if i == |ms| {
        assert ns[i] == question;
      } else {
        assert ns[i] == answer;
      }
    }
  }

  class AssistantPanel {
    var messages: seq<Message>
    var input: string
    var suggestions: seq<Suggestion>
    var isLoading: bool
    var activeTab: Tab
    var chatRequests: seq<ChatRequest>
    var analyzeRequests: seq<DiagramContext>

    /** The chat opens with the welcome message and then alternates: each user message is
        followed by the assistant's answer to it. */
    ghost predicate Valid()
      reads this
    {
      Alternates(messages)
    }

    constructor (now: int)
      ensures Valid()
      ensures messages == [Message(AssistantRole, Welcome, now)] && input == "" && suggestions == []
      ensures !isLoading && activeTab == ChatTab && chatRequests == [] && analyzeRequests == []
    {
      messages := [Message(AssistantRole, Welcome, now)];
      input, suggestions := "", [];
      isLoading, activeTab := false, ChatTab;
      chatRequests, analyzeRequests := [], [];
    }

    method TypeInput(s: string)
      modifies this`input
      ensures input == s
    {
      input := s;
    }

    /** `handleSendMessage`. A blank input changes nothing. Otherwise the input is appended as
        the user's message and cleared, the request carries it with the last ten messages from
        before it, and exactly one answer is appended: the server's or the apology. */
    method SendMessage(sentAt: int, reply: Option<string>, repliedAt: int)
      requires Valid()
      modifies this`messages, this`input, this`isLoading, this`chatRequests
      ensures Valid()
      ensures AllSpaces(old(input)) ==>
        messages == old(messages) && input == old(input) && isLoading == old(isLoading)
        && chatRequests == old(chatRequests)
      ensures !AllSpaces(old(input)) ==>
        (&& messages == old(messages) + [Message(UserRole, old(input), sentAt),
                                         Message(AssistantRole, ReplyText(reply), repliedAt)]
         && input == "" && !isLoading
         && chatRequests == old(chatRequests) + [ChatRequest(old(input), LastN(old(messages), HistoryLength))])
    {
      TrimEmptyIff(input);
      if Trim(input) == "" {
        return;
      }
      var before := messages;
      var question := Message(UserRole, input, sentAt);
      var answer := Message(AssistantRole, ReplyText(reply), repliedAt);
      AppendExchange(before, question, answer);
      Ask(sentAt);
      Receive(reply, repliedAt);
      assert messages == before + [question, answer];
    }

    /** The part of `handleSendMessage` before the request is awaited: the user's message is
        shown, the input cleared, and the request sent with the history from before it. */
    method Ask(sentAt: int)
      modifies this`messages, this`input, this`isLoading, this`chatRequests
      ensures messages == old(messages) + [Message(UserRole, old(input), sentAt)]
      ensures input == "" && isLoading
      ensures chatRequests == old(chatRequests) + [ChatRequest(old(input), LastN(old(messages), HistoryLength))]
    {
      var history := LastN(messages, HistoryLength);
      messages := messages + [Message(UserRole, input, sentAt)];
      chatRequests := chatRequests + [ChatRequest(input, history)];
      input := "";
      isLoading := true;
    }

    /** The part of `handleSendMessage` after the request settles: one answer is shown, the
        server's or the apology, and loading ends. */
    method Receive(reply: Option<string>, repliedAt: int)
      modifies this`messages, this`isLoading
      ensures messages == old(messages) + [Message(AssistantRole, ReplyText(reply), repliedAt)]
      ensures !isLoading
    {
      messages := messages + [Message(AssistantRole, ReplyText(reply), repliedAt)];
      isLoading := false;
    }

    /** `handleGetSuggestions`. With fewer than two entities nothing is posted and nothing
        changes. Otherwise the suggestions tab opens, the context of the diagram is posted, and
        the suggestions become the server's (none when it sends none); a failed request leaves
        them as they were. */
    method GetSuggestions(entities: seq<Entity>, relationships: seq<Relationship>,
                          reply: Option<Option<seq<Suggestion>>>)
      modifies this`suggestions, this`isLoading, this`activeTab, this`analyzeRequests
      ensures |entities| < 2 ==>
        suggestions == old(suggestions) && isLoading == old(isLoading) && activeTab == old(activeTab)
        && analyzeRequests == old(analyzeRequests)
      ensures |entities| >= 2 ==>
        (&& activeTab == SuggestionsTab && !isLoading
         && analyzeRequests == old(analyzeRequests) + [Context(entities, relationships)]
         && suggestions == (if reply.Some? then reply.value.GetOr([]) else old(suggestions)))
    {
      if |entities| < 2 {
        return;
      }
      isLoading := true;
      activeTab := SuggestionsTab;
      analyzeRequests := analyzeRequests + [Context(entities, relationships)];
      if reply.Some? {
        suggestions := reply.value.GetOr([]);
      }
      isLoading := false;
    }

    /** The suggestions tab button: it opens the tab, and analyses only when there are no
        suggestions yet and at least two entities. */
    method OpenSuggestionsTab(entities: seq<Entity>, relationships: seq<Relationship>,
                              reply: Option<Option<seq<Suggestion>>>)
      modifies this`suggestions, this`isLoading, this`activeTab, this`analyzeRequests
      ensures activeTab == SuggestionsTab
      ensures |old(suggestions)| == 0 && |entities| >= 2 ==>
        (&& analyzeRequests == old(analyzeRequests) + [Context(entities, relationships)]
         && suggestions == (if reply.Some? then reply.value.GetOr([]) else old(suggestions))
         && !isLoading)
      ensures !(|old(suggestions)| == 0 && |entities| >= 2) ==>
        analyzeRequests == old(analyzeRequests) && suggestions == old(suggestions) && isLoading == old(isLoading)
    {
      activeTab := SuggestionsTab;
      if |suggestions| == 0 && |entities| >= 2 {
        GetSuggestions(entities, relationships, reply);
      }
    }
  }

  /** Two exchanges: the second request carries the welcome and the whole first exchange as its
      history, and a failed second request is answered with the apology. */
  method TwoExchanges(first: string, second: string, answer: string)
    returns (requests: seq<ChatRequest>, messages: seq<Message>)
    requires !AllSpaces(first) && !AllSpaces(second)
    ensures |requests| == 2 && requests[0] == ChatRequest(first, [Message(AssistantRole, Welcome, 0)])
    ensures requests[1].history ==
      [Message(AssistantRole, Welcome, 0), Message(UserRole, first, 1), Message(AssistantRole, answer, 2)]
    ensures |messages| == 5 && messages[4] == Message(AssistantRole, Fallback, 4)
  {
    var p := new AssistantPanel(0);
    p.TypeInput(first);
    p.SendMessage(1, Some(answer), 2);
    p.TypeInput(second);
    p.SendMessage(3, None, 4);
    requests, messages := p.chatRequests, p.messages;
  }
}

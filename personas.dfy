/**
 * The personas ("clones of Bob") and their conversation memory: the agent
 * records of backend/agents/types.go and the catalog built by
 * backend/workflow/01-initialize-agents.go, reduced to what the workflow reads
 * and writes.
 */
module Personas {

  import opened Wrappers
  import opened Text

  /** One chat message with its role. */
  datatype Message = System(content: string) | User(content: string) | Assistant(content: string)

  /** The catalog's six entries (backend/workflow/01-initialize-agents.go). */
  datatype Persona = Bob | Bill | Milo | Garfield | Riker | Khan

  /**
   * A persona: its display name, the model it runs on and its message list
   * (`AgentConfig.Name`, `Agent.Params.Model`, `Agent.Params.Messages`), and,
   * for the proofs only, the persona it was initialised as.
   */
  class Agent {
    const name: string
    const model: string
    var messages: seq<Message>
    ghost const persona: Persona

    constructor (name: string, model: string, messages: seq<Message>, ghost persona: Persona)
      ensures this.name == name && this.model == model && this.messages == messages
      ensures this.persona == persona
    {
      this.name := name;
      this.model := model;
      this.messages := messages;
      this.persona := persona;
    }
  }

  /** A map with an entry for every persona. */
  predicate Total<V>(m: map<Persona, V>)
  {
    forall p :: p in m
  }

  /** The four personas a user can be handed to; Riker and Khan are routing agents. */
  predicate IsClone(p: Persona)
  {
    !p.Riker? && !p.Khan?
  }

  /** The persona's key in the catalog map. */
  function Key(p: Persona): string
  {
    match p
    case Bob => "bob"
    case Bill => "bill"
    case Milo => "milo"
    case Garfield => "garfield"
    case Riker => "riker"
    case Khan => "khan"
  }

  /** The `Name` each clone's configuration carries. */
  function DisplayName(p: Persona): string
  {
    match p
    case Bob => "Bob"
    case Bill => "Bill"
    case Milo => "Milo"
    case Garfield => "Garfield"
    case Riker => "Riker"
    case Khan => "Khan"
  }

  /** Title-casing a clone's key gives its display name. */
  lemma CapitalizedKey(p: Persona)
    requires IsClone(p)
    ensures Capitalize(Key(p)) == DisplayName(p)
  {
    match p
    case Bob => assert Capitalize("bob") == [UpperChar('b')] + "ob";
    case Bill => assert Capitalize("bill") == [UpperChar('b')] + "ill";
    case Milo => assert Capitalize("milo") == [UpperChar('m')] + "ilo";
    case Garfield => assert Capitalize("garfield") == [UpperChar('g')] + "arfield";
  }

  /**
   * The clone whose key is `name`, matched exactly: the `case "bill", "milo",
   * "garfield", "bob"` of the clone switch.
   */
  function CloneNamed(name: string): (r: Option<Persona>)
    ensures r.Some? ==> IsClone(r.value) && Key(r.value) == name
    ensures r.None? ==> forall p :: IsClone(p) ==> Key(p) != name
  {
    match name
    case "bill" => Some(Bill)
    case "milo" => Some(Milo)
    case "garfield" => Some(Garfield)
    case "bob" => Some(Bob)
    case _ => None
  }

  /**
   * What the workflow relies on: an entry for every persona, each its own
   * agent (so that distinct entries are distinct agents), and the four
   * clones carrying their display names.
   */
  ghost predicate ValidCatalog(catalog: map<Persona, Agent>)
  {
    && Total(catalog)
    && (forall p :: p in catalog ==> catalog[p].persona == p)
    && (forall p :: p in catalog && IsClone(p) ==> catalog[p].name == DisplayName(p))
  }

  /** The message list of every persona. */
  ghost function Histories(catalog: map<Persona, Agent>): (h: map<Persona, seq<Message>>)
    reads catalog.Values
    ensures Total(catalog) ==> Total(h)
  {
    map p | p in catalog :: catalog[p].messages
  }

  /**
   * Appends `ms` to the messages of `agent`, the catalog's entry for `p`;
   * every other persona keeps its own.
   */
  method AppendMessages(catalog: map<Persona, Agent>, ghost p: Persona, agent: Agent, ms: seq<Message>)
    requires ValidCatalog(catalog) && catalog[p] == agent
    modifies agent
    ensures agent.messages == old(agent.messages) + ms
    ensures Histories(catalog) == old(Histories(catalog))[p := old(agent.messages) + ms]
  {
    agent.messages := agent.messages + ms;
  }

  /** Memories are untouched while no agent of the catalog changes. */
  twostate lemma HistoriesUnchanged(catalog: map<Persona, Agent>)
    requires unchanged(catalog.Values)
    ensures Histories(catalog) == old(Histories(catalog))
  {
  }

  /** The model every persona runs on. */
  function Models(catalog: map<Persona, Agent>): (m: map<Persona, string>)
    ensures Total(catalog) ==> Total(m)
  {
    map p | p in catalog :: catalog[p].model
  }
}

/** The records the application passes around (the TypeScript types of
    types.ts, which is not part of this model): topics, profiles, role-play
    data and chat messages. */
module Types {

  datatype Option<+T> = None | Some(value: T)

  /** An opaque field value of a topic record. Only text and flags are ever
      interpreted; anything else (nested objects, arrays) is a Blob. */
  datatype Value = Text(s: string) | Flag(b: bool) | Num(n: int) | Blob(tag: nat)

  /** A topic record: its stable identity plus every other field by name. */
  datatype Topic = Topic(id: string, fields: map<string, Value>)

  /** The fields a deep-dive (second stage) result carries. */
  type Partial = map<string, Value>

  /** JavaScript truthiness of a field value. */
  predicate Truthy(v: Value)
  {
    match v
    case Text(s) => s != ""
    case Flag(b) => b
    case Num(n) => n != 0
    case Blob(_) => true
  }

  /** `topic.isInternational` read as a condition. */
  predicate IsInternational(t: Topic)
  {
    "isInternational" in t.fields && Truthy(t.fields["isInternational"])
  }

  /** The raw `category` text, if the record carries one. */
  function CategoryField(t: Topic): Option<string>
  {
    if "category" in t.fields && t.fields["category"].Text? then Some(t.fields["category"].s) else None
  }

  /** The raw `title` text, if the record carries one. */
  function TitleField(t: Topic): Option<string>
  {
    if "title" in t.fields && t.fields["title"].Text? then Some(t.fields["title"].s) else None
  }

  /** `topic.category` read as a condition: present and not the empty string. */
  predicate HasCategory(t: Topic)
  {
    CategoryField(t).Some? && CategoryField(t).value != ""
  }

  /** The category of a record that has one (see HasCategory). */
  function Category(t: Topic): string
    requires HasCategory(t)
  {
    CategoryField(t).value
  }

  /** A text field, or the empty text when the record lacks it. */
  function TextField(t: Topic, name: string): string
  {
    if name in t.fields && t.fields[name].Text? then t.fields[name].s else ""
  }

  function Title(t: Topic): string { TextField(t, "title") }

  function Summary(t: Topic): string { TextField(t, "summary") }

  /** The object spread `{ ...t, ...deep }`: fields of `deep` overwrite,
      fields it lacks are kept, the identity is untouched. */
  function Merge(t: Topic, deep: Partial): (r: Topic)
    ensures r.id == t.id
    ensures r.fields.Keys == t.fields.Keys + deep.Keys
    ensures forall k :: k in deep ==> r.fields[k] == deep[k]
    ensures forall k :: k in t.fields && k !in deep ==> r.fields[k] == t.fields[k]
  {
    Topic(t.id, t.fields + deep)
  }

  /** No identity occurs twice: the favorites are a set keyed by identity. */
  predicate UniqueIds(s: seq<Topic>)
  {
    forall i, j :: 0 <= i < j < |s| ==> s[i].id != s[j].id
  }

  /** The set of identities occurring in a list of records. */
  function IdSet(s: seq<Topic>): set<string>
  {
    set i | 0 <= i < |s| :: s[i].id
  }

  datatype ViewState = Home | Searching | Detail | ProfileView

  datatype Membership = Free | Pro

  datatype Incentives = Incentives(
    currentStreak: nat,
    totalOutsideCocoonReads: nat,
    errorsCorrected: nat,
    suggestionsAdopted: nat,
    referrals: nat)

  datatype Profile = Profile(
    age: string,
    occupation: string,
    education: string,
    language: string,
    membership: Membership,
    incentives: Incentives)

  datatype GameMode = Dilemma | Chat

  /** Role-play data of a topic. `rounds` is the length of the rounds array
      when the array is present (None when it is undefined). */
  datatype RolePlayData = RolePlayData(
    mode: Option<GameMode>,
    rounds: Option<nat>,
    initialMessage: Option<string>,
    roleName: Option<string>)

  datatype Role = User | Model

  datatype ChatMessage = ChatMessage(role: Role, text: string)
}

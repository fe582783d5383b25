/**
 * `IntentHandlers` (intent_handlers.py): routing of a classified intent to
 * its handler with the handling statistics, the safeguard and dispatch of
 * record creation, the identifier extraction of record reads and the
 * listing rules for contacts.
 *
 * Entities are the string-valued map the language model extracted; a
 * missing entity and an empty one are alike, as they are to Python's `or`.
 * The memory store is a parameter: `lookup(q)` is what `find_contacts(q)`
 * returns, and creation is reported by the key fields of the record that
 * would be stored: a contact's name, an event's title and start, a
 * note's title and content.
 */
module IntentHandling {
  import opened Common

  // -------------------------------------------------------------- routing

  const HandlerNames: set<string> :=
    {"crud_create", "crud_read", "crud_update", "crud_delete", "smarthome", "query", "conversation"}

  const NoHandlerMessage := "I'm not sure how to help with that yet."

  /** What a registered handler did: answered, or raised with a message. */
  datatype HandlerOutcome = Replied(text: string) | Raised(error: string)

  function TroubleMessage(error: string): string
  {
    "I had trouble processing that request. (" + error + ")"
  }

  class IntentHandlers {
    var totalHandled: nat
    var byIntent: map<string, nat>
    var failures: nat

    /** Only handled requests can fail. */
    ghost predicate Valid()
      reads this
    {
      failures <= totalHandled
    }

    constructor ()
      ensures Valid()
      ensures totalHandled == 0 && byIntent == map[] && failures == 0
    {
      totalHandled := 0;
      byIntent := map[];
      failures := 0;
    }

    /**
     * `route`: every call is counted, under its intent, whether or not a
     * handler is registered for it; only a handler that raises counts as a
     * failure.
     */
    method Route(intent: string, outcome: HandlerOutcome) returns (reply: string)
      requires Valid()
      modifies this
      ensures Valid()
      ensures totalHandled == old(totalHandled) + 1
      ensures byIntent == old(byIntent)[intent := (if intent in old(byIntent) then old(byIntent)[intent] else 0) + 1]
      ensures intent !in HandlerNames ==> reply == NoHandlerMessage && failures == old(failures)
      ensures intent in HandlerNames && outcome.Replied? ==> reply == outcome.text && failures == old(failures)
      ensures intent in HandlerNames && outcome.Raised? ==>
                reply == TroubleMessage(outcome.error) && failures == old(failures) + 1
    {
      totalHandled := totalHandled + 1;
      var count := if intent in byIntent then byIntent[intent] else 0;
      byIntent := byIntent[intent := count + 1];
      if intent !in HandlerNames {
        return NoHandlerMessage;
      }
      match outcome
      case Replied(text) =>
        reply := text;
      case Raised(error) =>
        failures := failures + 1;
        reply := TroubleMessage(error);
    }

    /** The `success_rate` of `get_stats`. */
    function SuccessRate(): (rate: real)
      requires Valid()
      reads this
      ensures 0.0 <= rate <= 1.0
      ensures failures == 0 ==> rate == (if totalHandled == 0 then 0.0 else 1.0)
      ensures totalHandled > 0 && failures == totalHandled ==> rate == 0.0
      ensures totalHandled > 0 ==> rate * totalHandled as real == (totalHandled - failures) as real
    {
      var d := if totalHandled > 1 then totalHandled else 1;
      RatioBounds(totalHandled - failures, d);
      (totalHandled - failures) as real / d as real
    }
  }

  // ------------------------------------------------------------- entities

  /** `entities.get(key)` read for its truth: a missing entity is the empty string. */
  function Entity(entities: map<string, string>, key: string): string
  {
    if key in entities then entities[key] else ""
  }

  /** `a or b` on strings. */
  function Or(a: string, b: string): string
  {
    if a != "" then a else b
  }

  /** `_parse_datetime`: the date, then the time after a space when there is one. */
  function JoinDateTime(date: string, time: string): (r: string)
    ensures time == "" ==> r == date
    ensures time != "" ==> |r| == |date| + 1 + |time| && r[..|date|] == date && r[|date|] == ' ' &&
                           r[|date| + 1..] == time
  {
    if time != "" then date + " " + time else date
  }

  // ------------------------------------------------------------- creation

  /** What `handle_crud_create` does; the three `Save` outcomes are the only ones that store. */
  datatype CreateReply =
    | MemoryNotReady
    | AskLookupOrCreate(name: string)
    | NeedContactName
    | SaveContact(name: string)
    | NeedTitleAndDate
    | SaveEvent(title: string, start: string)
    | SaveNote(title: string, content: string)

  predicate Stores(r: CreateReply)
  {
    r.SaveContact? || r.SaveEvent? || r.SaveNote?
  }

  /** An entity that, on its own, makes a short input a request to store. */
  predicate HasDetailEntity(entities: map<string, string>)
  {
    Entity(entities, "phone") != "" || Entity(entities, "email") != "" ||
    Entity(entities, "company") != "" || Entity(entities, "content") != ""
  }

  function CreateWords(originalInput: string): seq<string>
  {
    Split(Strip(originalInput))
  }

  function RecordType(entities: map<string, string>): string
  {
    if "type" in entities then entities["type"] else "note"
  }

  /** Memory is available and the input is not taken for a lookup, so a creator runs. */
  predicate ReachesCreator(entities: map<string, string>, originalInput: string, memoryReady: bool)
  {
    memoryReady && !(|CreateWords(originalInput)| <= 2 && !HasDetailEntity(entities))
  }

  /**
   * `handle_crud_create` with its three creators: a short input without
   * details is taken for a lookup; otherwise the record type, defaulting to
   * a note, picks the creator, and each creator checks what it needs.
   */
  function CrudCreate(entities: map<string, string>, originalInput: string, memoryReady: bool): (r: CreateReply)
    ensures r == MemoryNotReady <==> !memoryReady
    ensures r.AskLookupOrCreate? <==>
              memoryReady && |CreateWords(originalInput)| <= 2 && !HasDetailEntity(entities)
    ensures r.AskLookupOrCreate? ==> (!Stores(r) &&
              r.name == (if |CreateWords(originalInput)| > 0 then CreateWords(originalInput)[0] else originalInput))
    ensures r.SaveContact? ==> RecordType(entities) == "contact" && r.name != "" && r.name == Entity(entities, "name")
    ensures r.NeedContactName? <==> (memoryReady && !(|CreateWords(originalInput)| <= 2 && !HasDetailEntity(entities)) &&
              RecordType(entities) == "contact" && Entity(entities, "name") == "")
    ensures r.SaveEvent? ==> (RecordType(entities) == "calendar" && r.start != "" && Entity(entities, "title") != "" &&
              r.title == Entity(entities, "title") &&
              r.start == JoinDateTime(Or(Entity(entities, "date"), Entity(entities, "start_datetime")), Entity(entities, "time")) &&
              StartsWith(r.start, Or(Entity(entities, "date"), Entity(entities, "start_datetime"))))
    ensures r.NeedTitleAndDate? <==> (memoryReady && !(|CreateWords(originalInput)| <= 2 && !HasDetailEntity(entities)) &&
              RecordType(entities) == "calendar" &&
              (Entity(entities, "title") == "" || Or(Entity(entities, "date"), Entity(entities, "start_datetime")) == ""))
    ensures r.SaveNote? ==> RecordType(entities) !in {"contact", "calendar"} && (r.content == "" ==> originalInput == "")
    ensures r.SaveNote? ==>
              r.title == Or(Or(Entity(entities, "title"), Entity(entities, "name")), Take(originalInput, 50)) &&
              r.content == Or(Entity(entities, "content"), originalInput)
  {
    var words := CreateWords(originalInput);
    if !memoryReady then MemoryNotReady
    else if |words| <= 2 && !HasDetailEntity(entities) then
      AskLookupOrCreate(if |words| > 0 then words[0] else originalInput)
    else if RecordType(entities) == "contact" then
      var name := Entity(entities, "name");
      if name == "" then NeedContactName else SaveContact(name)
    else if RecordType(entities) == "calendar" then
      var title := Entity(entities, "title");
      var start := Or(Entity(entities, "date"), Entity(entities, "start_datetime"));
      if title == "" || start == "" then NeedTitleAndDate
      else SaveEvent(title, JoinDateTime(start, Entity(entities, "time")))
    else
      SaveNote(Or(Or(Entity(entities, "title"), Entity(entities, "name")), Take(originalInput, 50)),
               Or(Entity(entities, "content"), originalInput))
  }

  /**
   * Once memory is available and the input is not taken for a lookup, each
   * record type stores when it has what it needs: a named contact, a
   * titled and dated event, and a note for any other type.
   */
  lemma CrudCreateStores(entities: map<string, string>, originalInput: string)
    requires ReachesCreator(entities, originalInput, true)
    ensures var r := CrudCreate(entities, originalInput, true);
      (RecordType(entities) == "contact" ==>
         (Stores(r) <==> Entity(entities, "name") != "") &&
         (Entity(entities, "name") != "" ==> r == SaveContact(Entity(entities, "name")))) &&
      (RecordType(entities) == "calendar" ==>
         (Stores(r) <==> Entity(entities, "title") != "" &&
                         Or(Entity(entities, "date"), Entity(entities, "start_datetime")) != "") &&
         (Stores(r) ==> r.SaveEvent?)) &&
      (RecordType(entities) !in {"contact", "calendar"} ==> r.SaveNote?)
  {
  }

  // ------------------------------------------------- identifier extraction

  const ListKeywords: seq<string> := ["all", "contacts", "everyone", "list"]
  const CommonWords: seq<string> :=
    ["what", "is", "the", "a", "an", "about", "tell", "me", "who", "when", "where", "show", "list", "all",
     "my", "contact", "contacts", "number", "phone", "email"]
  const Punctuation: set<char> := {'?', '.', ',', '!'}

  predicate Possessive(word: string)
  {
    Contains(word, "'s") || Contains(word, "s'")
  }

  /** A possessive word with its `'s` and `s'` removed and its punctuation stripped. */
  function Owner(word: string): string
  {
    StripChars(ReplaceAll(ReplaceAll(word, "'s", ""), "s'", ""), Punctuation)
  }

  /** The index of the first possessive word. */
  function FirstPossessive(words: seq<string>): (r: Option<nat>)
    ensures r.Some? ==> r.value < |words| && Possessive(words[r.value])
    ensures r.Some? ==> forall j :: 0 <= j < r.value ==> !Possessive(words[j])
    ensures r.None? ==> forall j :: 0 <= j < |words| ==> !Possessive(words[j])
  {
    if |words| == 0 then None
    else if Possessive(words[0]) then Some(0)
    else match FirstPossessive(words[1..])
      case None => None
      case Some(i) => Some(i + 1)
  }

  lemma {:induction false} FirstPossessiveIs(words: seq<string>, i: nat)
    requires i < |words| && Possessive(words[i])
    requires forall j :: 0 <= j < i ==> !Possessive(words[j])
    ensures FirstPossessive(words) == Some(i)
  {
    if i > 0 {
      FirstPossessiveIs(words[1..], i - 1);
    }
  }

  predicate IsCommon(word: string)
  {
    word in CommonWords
  }

  /** The index of the last word that is not a common word. */
  function LastUncommon(words: seq<string>): (r: Option<nat>)
    ensures r.Some? ==> r.value < |words| && !IsCommon(words[r.value])
    ensures r.Some? ==> forall k :: r.value < k < |words| ==> IsCommon(words[k])
    ensures r.None? ==> forall k :: 0 <= k < |words| ==> IsCommon(words[k])
  {
    if |words| == 0 then None
    else if !IsCommon(words[|words| - 1]) then Some(|words| - 1)
    else LastUncommon(words[..|words| - 1])
  }

  /** `potential_names`: the words that are not common words, stripped of punctuation. */
  function PotentialNames(words: seq<string>): (r: seq<string>)
    ensures |r| <= |words|
  {
    if |words| == 0 then []
    else
      var rest := PotentialNames(words[..|words| - 1]);
      var last := words[|words| - 1];
      if IsCommon(last) then rest else rest + [StripChars(last, Punctuation)]
  }

  /** The last potential name comes from the last word that is not a common word. */
  lemma {:induction false} PotentialNamesLast(words: seq<string>)
    ensures |PotentialNames(words)| == 0 <==> LastUncommon(words).None?
    ensures |PotentialNames(words)| > 0 ==>
      PotentialNames(words)[|PotentialNames(words)| - 1] == StripChars(words[LastUncommon(words).value], Punctuation)
  {
    if |words| > 0 && IsCommon(words[|words| - 1]) {
      PotentialNamesLast(words[..|words| - 1]);
      var k := LastUncommon(words[..|words| - 1]);
      if k.Some? {
        assert words[..|words| - 1][k.value] == words[k.value];
      }
    }
  }

  function GivenIdentifier(entities: map<string, string>): string
  {
    var given := Entity(entities, "identifier");
    if given == "" || LowerStr(given) in ListKeywords then "" else given
  }

  function ReadWords(originalInput: string): seq<string>
  {
    Split(LowerStr(originalInput))
  }

  /**
   * The identifier `handle_crud_read` settles on: the given one unless it
   * is empty or a list keyword; else the owner named by the first possessive
   * word; else the last word that is not a common word.
   */
  function Identifier(entities: map<string, string>, originalInput: string): (r: string)
    ensures GivenIdentifier(entities) != "" ==> r == GivenIdentifier(entities)
  {
    if GivenIdentifier(entities) != "" then GivenIdentifier(entities) else NameIn(ReadWords(originalInput))
  }

  /** The owner named by the first possessive word, else the last potential name. */
  function NameIn(words: seq<string>): string
  {
    var potential := PotentialNames(words);
    var owner := OwnerIn(words);
    if owner == "" && |potential| > 0 then potential[|potential| - 1] else owner
  }

  /** What the first possessive word leaves once cleaned, or nothing without one. */
  function OwnerIn(words: seq<string>): string
  {
    match FirstPossessive(words)
    case None => ""
    case Some(i) => Owner(words[i])
  }

  /** The identifier steps of `handle_crud_read`. */
  method ExtractIdentifier(entities: map<string, string>, originalInput: string) returns (identifier: string)
    ensures identifier == Identifier(entities, originalInput)
  {
    identifier := Entity(entities, "identifier");
    if identifier == "" || LowerStr(identifier) in ListKeywords {
      identifier := "";
    }
    if identifier == "" {
      var words := ReadWords(originalInput);
      var potential := PotentialNames(words);
      identifier := FindOwner(words);
      if identifier == "" && |potential| > 0 {
        identifier := potential[|potential| - 1];
      }
    }
  }

  /** The possessive loop of `handle_crud_read`, which stops at the first possessive word. */
  method FindOwner(words: seq<string>) returns (owner: string)
    ensures owner == OwnerIn(words)
  {
    owner := "";
    var i := 0;
    while i < |words|
      invariant 0 <= i <= |words|
      invariant forall j :: 0 <= j < i ==> !Possessive(words[j])
    {
      if Possessive(words[i]) {
        FirstPossessiveIs(words, i);
        return Owner(words[i]);
      }
      i := i + 1;
    }
  }

  /** A possessive word settles the identifier unless nothing is left of it once cleaned. */
  lemma PossessiveWins(entities: map<string, string>, originalInput: string, i: nat)
    requires GivenIdentifier(entities) == ""
    requires i < |ReadWords(originalInput)| && Possessive(ReadWords(originalInput)[i])
    requires forall j :: 0 <= j < i ==> !Possessive(ReadWords(originalInput)[j])
    requires Owner(ReadWords(originalInput)[i]) != ""
    ensures Identifier(entities, originalInput) == Owner(ReadWords(originalInput)[i])
  {
    FirstPossessiveIs(ReadWords(originalInput), i);
  }

  /** Without a possessive word, the identifier comes from the last word that is not a common word. */
  lemma LastMeaningfulWord(entities: map<string, string>, originalInput: string)
    requires GivenIdentifier(entities) == ""
    requires forall j :: 0 <= j < |ReadWords(originalInput)| ==> !Possessive(ReadWords(originalInput)[j])
    ensures LastUncommon(ReadWords(originalInput)).None? ==> Identifier(entities, originalInput) == ""
    ensures var words := ReadWords(originalInput);
      LastUncommon(words).Some? ==>
        Identifier(entities, originalInput) == StripChars(words[LastUncommon(words).value], Punctuation)
  {
    var words := ReadWords(originalInput);
    NameInWithoutPossessive(words);
    assert Identifier(entities, originalInput) == NameIn(words);
  }

  lemma NameInWithoutPossessive(words: seq<string>)
    requires forall j :: 0 <= j < |words| ==> !Possessive(words[j])
    ensures LastUncommon(words).None? ==> NameIn(words) == ""
    ensures LastUncommon(words).Some? ==> NameIn(words) == StripChars(words[LastUncommon(words).value], Punctuation)
  {
    PotentialNamesLast(words);
    match FirstPossessive(words)
    case None =>
    case Some(i) =>
      assert false;
  }

  // ------------------------------------------------------------- contacts

  datatype Contact = Contact(name: string, fields: map<string, string>)

  /** `contact.get(key)` read for its truth. */
  function Field(c: Contact, key: string): string
  {
    if key == "name" then c.name else if key in c.fields then c.fields[key] else ""
  }

  function PhoneOf(c: Contact): string
  {
    Or(Or(Field(c, "phone_mobile"), Field(c, "phone_home")), "no phone")
  }

  /** One listed contact: name, company (empty where the listing does not show one) and phone. */
  datatype ContactLine = ContactLine(name: string, company: string, phone: string)

  /** What `_read_contact` answers, before it is rendered as text. */
  datatype ContactReply =
    | NoContacts
    | AllContacts(lines: seq<ContactLine>)
    | ContactSummary(count: nat, firstNames: seq<string>)
    | NoMatch(identifier: string)
    | FieldValue(name: string, field: string, value: string)
    | NoFieldValue(field: string, name: string)
    | ContactCard(name: string, entries: seq<(string, string)>)
    | Ambiguous(identifier: string, count: nat, shown: seq<ContactLine>, more: nat)

  const ListAllWords: seq<string> := ["all", "contacts", "everyone"]
  const WholeCardFields: seq<string> := ["all", "info", "information"]
  const CardFields: seq<string> := ["phone_mobile", "phone_work", "phone_home", "email_personal", "company"]
  const MaxListed: nat := 10
  const MaxAmbiguous: nat := 5

  /** The keys tried, in order, when one field of a contact is asked for. */
  function FieldKeys(field: string): seq<string>
  {
    [field, field + "_mobile", field + "_personal", "phone_" + field, "email_" + field]
  }

  /** The value of the first key in `keys` that the contact has set, or empty. */
  function FirstSet(c: Contact, keys: seq<string>): (v: string)
    ensures v != "" ==> exists i :: 0 <= i < |keys| && Field(c, keys[i]) == v &&
                                    forall j :: 0 <= j < i ==> Field(c, keys[j]) == ""
    ensures v == "" <==> forall i :: 0 <= i < |keys| ==> Field(c, keys[i]) == ""
  {
    if |keys| == 0 then "" else Or(Field(c, keys[0]), FirstSet(c, keys[1..]))
  }

  /** The card's present fields, in the card's order. */
  function CardEntries(c: Contact, keys: seq<string>): (r: seq<(string, string)>)
    ensures |r| <= |keys|
    ensures forall i :: 0 <= i < |r| ==> r[i].1 != "" && r[i].1 == Field(c, r[i].0) && r[i].0 in keys
    ensures forall k :: k in keys && Field(c, k) != "" ==> (k, Field(c, k)) in r
  {
    if |keys| == 0 then []
    else
      var rest := CardEntries(c, keys[1..]);
      if Field(c, keys[0]) != "" then [(keys[0], Field(c, keys[0]))] + rest else rest
  }

  /**
   * The card keeps the order of `keys`: the entries of a concatenation are
   * those of each part in turn, and a single key gives its entry when the
   * field is set and nothing otherwise.
   */
  lemma {:induction false} CardEntriesInOrder(c: Contact, a: seq<string>, b: seq<string>)
    ensures CardEntries(c, a + b) == CardEntries(c, a) + CardEntries(c, b)
    ensures forall k :: CardEntries(c, [k]) == if Field(c, k) != "" then [(k, Field(c, k))] else []
  {
    CardEntriesConcat(c, a, b);
    forall k ensures CardEntries(c, [k]) == if Field(c, k) != "" then [(k, Field(c, k))] else [] {
      assert [k][1..] == [];
    }
  }

  lemma {:induction false} CardEntriesConcat(c: Contact, a: seq<string>, b: seq<string>)
    ensures CardEntries(c, a + b) == CardEntries(c, a) + CardEntries(c, b)
    decreases |a|
  {
    if |a| == 0 {
      assert a + b == b;
    } else {
      assert (a + b)[1..] == a[1..] + b;
      CardEntriesConcat(c, a[1..], b);
    }
  }

  function PhoneLines(cs: seq<Contact>): (r: seq<ContactLine>)
    ensures |r| == |cs|
    ensures forall i :: 0 <= i < |cs| ==> r[i] == ContactLine(cs[i].name, "", PhoneOf(cs[i]))
  {
    seq(|cs|, i requires 0 <= i < |cs| => ContactLine(cs[i].name, "", PhoneOf(cs[i])))
  }

  function MatchLines(cs: seq<Contact>): (r: seq<ContactLine>)
    ensures |r| == |cs|
    ensures forall i :: 0 <= i < |cs| ==> r[i] == ContactLine(cs[i].name, Field(cs[i], "company"), PhoneOf(cs[i]))
  {
    seq(|cs|, i requires 0 <= i < |cs| => ContactLine(cs[i].name, Field(cs[i], "company"), PhoneOf(cs[i])))
  }

  /**
   * `_read_contact`: an empty identifier or a list word lists every contact
   * (all of them up to ten, otherwise the count and the first ten names); a
   * single match answers the asked field or shows the card; several matches
   * show at most five and count the rest.
   */
  function ReadContact(identifier: string, field: string, lookup: string -> seq<Contact>): (r: ContactReply)
    ensures identifier == "" || identifier in ListAllWords ==>
      var all := lookup("");
      (|all| == 0 ==> r == NoContacts) &&
      (0 < |all| <= MaxListed ==> (r.AllContacts? && |r.lines| == |all| &&
         forall i :: 0 <= i < |all| ==> r.lines[i] == ContactLine(all[i].name, "", PhoneOf(all[i])))) &&
      (|all| > MaxListed ==> (r.ContactSummary? && r.count == |all| && |r.firstNames| == MaxListed &&
         forall i :: 0 <= i < MaxListed ==> r.firstNames[i] == all[i].name))
    ensures identifier != "" && identifier !in ListAllWords ==>
      var found := lookup(identifier);
      (|found| == 0 <==> r == NoMatch(identifier)) &&
      (|found| > 1 ==> (r.Ambiguous? && r.count == |found| &&
         |r.shown| == (if |found| < MaxAmbiguous then |found| else MaxAmbiguous) &&
         r.more == |found| - |r.shown| &&
         forall i :: 0 <= i < |r.shown| ==>
           r.shown[i] == ContactLine(found[i].name, Field(found[i], "company"), PhoneOf(found[i])))) &&
      (|found| == 1 ==> (r.FieldValue? || r.NoFieldValue? || r.ContactCard?))
    ensures r.FieldValue? ==> r.value != "" && field !in WholeCardFields
    ensures r.ContactCard? ==> |r.entries| <= |CardFields|
    ensures identifier != "" && identifier !in ListAllWords && |lookup(identifier)| == 1 ==>
      var c := lookup(identifier)[0];
      if field in WholeCardFields then r == ContactCard(c.name, CardEntries(c, CardFields))
      else if FirstSet(c, FieldKeys(field)) != "" then r == FieldValue(c.name, field, FirstSet(c, FieldKeys(field)))
      else r == NoFieldValue(field, c.name)
  {
    if identifier == "" || identifier in ListAllWords then
      var all := lookup("");
      if |all| == 0 then NoContacts
      else if |all| <= MaxListed then AllContacts(PhoneLines(all))
      else ContactSummary(|all|, seq(MaxListed, i requires 0 <= i < MaxListed => all[i].name))
    else
      var found := lookup(identifier);
      if |found| == 0 then NoMatch(identifier)
      else if |found| == 1 then
        var c := found[0];
        if field !in WholeCardFields then
          var v := FirstSet(c, FieldKeys(field));
          if v != "" then FieldValue(c.name, field, v) else NoFieldValue(field, c.name)
        else ContactCard(c.name, CardEntries(c, CardFields))
      else
        var shown := if |found| < MaxAmbiguous then found else found[..MaxAmbiguous];
        Ambiguous(identifier, |found|, MatchLines(shown), |found| - |shown|)
  }

  // ---------------------------------------------------------------- reads

  /** What `handle_crud_read` answers: the contact reader's reply, or which other reader it hands over to. */
  datatype ReadReply =
    | ReadNoMemory
    | ContactsRead(reply: ContactReply)
    | CalendarRead(identifier: string)
    | NotesRead(identifier: string)
    | UnsupportedType(recordType: string)

  /** The record type of a read, defaulting to a contact (a creation defaults to a note). */
  function ReadType(entities: map<string, string>): string
  {
    if "type" in entities then entities["type"] else "contact"
  }

  /** The field asked about, defaulting to the whole card. */
  function ReadField(entities: map<string, string>): string
  {
    if "field" in entities then entities["field"] else "all"
  }

  /**
   * `handle_crud_read`: with memory available, the identifier it settles on
   * goes to the contact, calendar or note reader picked by the record type;
   * any other type is refused.
   */
  function CrudRead(entities: map<string, string>, originalInput: string, memoryReady: bool,
                    lookup: string -> seq<Contact>): (r: ReadReply)
    ensures r == ReadNoMemory <==> !memoryReady
    ensures r.ContactsRead? <==> memoryReady && ReadType(entities) == "contact"
    ensures r.CalendarRead? <==> memoryReady && ReadType(entities) == "calendar"
    ensures r.NotesRead? <==> memoryReady && ReadType(entities) == "note"
    ensures r.UnsupportedType? <==> memoryReady && ReadType(entities) !in {"contact", "calendar", "note"}
    ensures r.ContactsRead? ==> r.reply == ReadContact(Identifier(entities, originalInput), ReadField(entities), lookup)
    ensures r.CalendarRead? || r.NotesRead? ==> r.identifier == Identifier(entities, originalInput)
  {
    if !memoryReady then ReadNoMemory
    else
      var identifier := Identifier(entities, originalInput);
      match ReadType(entities)
      case "contact" => ContactsRead(ReadContact(identifier, ReadField(entities), lookup))
      case "calendar" => CalendarRead(identifier)
      case "note" => NotesRead(identifier)
      case other => UnsupportedType(other)
  }

  /**
   * A read naming no type and no field looks up a contact and shows its
   * whole card: a single match for a given identifier is its card.
   */
  lemma ReadDefaultsToCard(entities: map<string, string>, originalInput: string, lookup: string -> seq<Contact>)
    requires "type" !in entities && "field" !in entities
    requires GivenIdentifier(entities) != "" && GivenIdentifier(entities) !in ListAllWords
    requires |lookup(GivenIdentifier(entities))| == 1
    ensures var c := lookup(GivenIdentifier(entities))[0];
      CrudRead(entities, originalInput, true, lookup) == ContactsRead(ContactCard(c.name, CardEntries(c, CardFields)))
  {
    assert WholeCardFields[0] == "all";
  }
}

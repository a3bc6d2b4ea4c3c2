/**
 * The admin inbox (src/app/admin/messages/page.tsx): the contact messages,
 * narrowed by a case-insensitive search over the sender's names and email
 * and the message text.
 */
module MessagesPage {
  import opened Wrappers
  import opened JsStrings
  import opened JsArrays

  /** A contact-form message; `status` may be missing on older rows. */
  datatype Message = Message(
    id: string, first_name: string, last_name: string, email: string,
    phone: string, message: string, created_at: string, status: Option<string>)

  /** The term occurs, ignoring case, in the first name, last name, email or message. */
  predicate MatchesTerm(m: Message, term: string) {
    var t := ToLower(term);
    Includes(ToLower(m.first_name), t) || Includes(ToLower(m.last_name), t)
      || Includes(ToLower(m.email), t) || Includes(ToLower(m.message), t)
  }

  function Matching(term: string): Message -> bool {
    (m: Message) => MatchesTerm(m, term)
  }

  /** `filteredMessages` */
  function FilteredMessages(messages: seq<Message>, term: string): (shown: seq<Message>)
    ensures |shown| <= |messages|
  {
    Filter(Matching(term), messages)
  }

  /** The result keeps the inbox order and drops only non-matching messages. */
  lemma FilteredIsSubsequence(messages: seq<Message>, term: string)
    ensures IsSubsequence(FilteredMessages(messages, term), messages)
  {
    FilterIsSubsequence(Matching(term), messages);
  }

  /** A message is shown exactly when the term occurs in one of the four searched fields. */
  lemma FilteredMembership(messages: seq<Message>, term: string, m: Message)
    ensures m in FilteredMessages(messages, term) <==> m in messages && MatchesTerm(m, term)
  {
    FilterMembership(Matching(term), messages, m);
  }

  /** An empty search term shows the whole inbox. */
  lemma EmptyTermShowsAll(messages: seq<Message>)
    ensures FilteredMessages(messages, "") == messages
  {
    forall i | 0 <= i < |messages|
      ensures MatchesTerm(messages[i], "")
    {
      IncludesEmpty(ToLower(messages[i].first_name));
    }
    FilterKeepsAll(Matching(""), messages);
  }

  /** The phone number and the status are never searched: changing them changes no match. */
  lemma PhoneAndStatusNotSearched(m: Message, term: string, phone: string, status: Option<string>)
    ensures MatchesTerm(m.(phone := phone, status := status), term) == MatchesTerm(m, term)
  {
  }

  /** `msg.status || 'new'`: the status shown for a message. */
  function StatusLabel(m: Message): (text: string)
    ensures Truthy(m.status) ==> text == m.status.value
    ensures !Truthy(m.status) ==> text == "new"
  {
    OrDefault(m.status, "new")
  }
}

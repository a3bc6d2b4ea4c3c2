/**
 * The admin customer list (src/app/admin/customers/page.tsx): the customers
 * from the customer endpoint, narrowed by a case-insensitive search over
 * name and email, each shown with an initial and a shortened id.
 */
module CustomersPage {
  import opened Wrappers
  import opened Types
  import opened JsStrings
  import opened JsArrays
  import opened CustomersRoute

  /** The term occurs, ignoring case, in the customer's name or email. */
  predicate MatchesTerm(c: Customer, term: string) {
    Includes(ToLower(c.name), ToLower(term)) || Includes(ToLower(c.email), ToLower(term))
  }

  function Matching(term: string): Customer -> bool {
    (c: Customer) => MatchesTerm(c, term)
  }

  /** `filteredCustomers` */
  function FilteredCustomers(customers: seq<Customer>, term: string): (shown: seq<Customer>)
    ensures |shown| <= |customers|
  {
    Filter(Matching(term), customers)
  }

  /** The result keeps the list order and drops only non-matching customers. */
  lemma FilteredIsSubsequence(customers: seq<Customer>, term: string)
    ensures IsSubsequence(FilteredCustomers(customers, term), customers)
  {
    FilterIsSubsequence(Matching(term), customers);
  }

  /** A customer is shown exactly when the term occurs in its name or email. */
  lemma FilteredMembership(customers: seq<Customer>, term: string, c: Customer)
    ensures c in FilteredCustomers(customers, term) <==> c in customers && MatchesTerm(c, term)
  {
    FilterMembership(Matching(term), customers, c);
  }

  /** An empty search term shows every customer. */
  lemma EmptyTermShowsAll(customers: seq<Customer>)
    ensures FilteredCustomers(customers, "") == customers
  {
    forall i | 0 <= i < |customers|
      ensures MatchesTerm(customers[i], "")
    {
      IncludesEmpty(ToLower(customers[i].name));
    }
    FilterKeepsAll(Matching(""), customers);
  }

  /** The phone is never searched: changing it changes no match. */
  lemma PhoneNotSearched(c: Customer, term: string, phone: string)
    ensures MatchesTerm(c.(phone := phone), term) == MatchesTerm(c, term)
  {
  }

  /**
   * A profile without a name becomes a customer named "N/A", so searching
   * "n/a" finds it.
   */
  lemma NamelessCustomerMatchesNA(profile: Profile, users: seq<AuthUser>, orders: seq<OrderLine>)
    requires profile.full_name.None?
    ensures MatchesTerm(CustomerOf(profile, users, orders), "n/a")
  {
    var c := CustomerOf(profile, users, orders);
    assert c.name == "N/A";
    assert ToLower("N/A") == "n/a";
    LowerCaseUnchanged("n/a");
    assert Includes("n/a", "n/a");
  }

  /** `customer.name.charAt(0)`: the avatar letter, "" for an empty name. */
  function Avatar(c: Customer): (letter: string)
    ensures |letter| <= 1 && letter <= c.name
    ensures c.name != "" ==> letter == [c.name[0]]
  {
    FirstChar(c.name)
  }

  /** `customer.id.slice(0, 8)`: the id as displayed, its first 8 characters or all of a shorter id. */
  function ShortId(c: Customer): (shown: string)
    ensures |shown| == if |c.id| < 8 then |c.id| else 8
    ensures shown <= c.id
    ensures |c.id| <= 8 ==> shown == c.id
  {
    Prefix(c.id, 8)
  }
}

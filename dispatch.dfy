/** One recipient's part of the campaign script: reading the recipients
    from the export (`read_customers`) and what `send_email` does around the
    provider call (personalising the template, classifying the reply). */
module Dispatch {
  import opened Strings
  import opened CsvInput
  import opened Results

  /** A recipient, tagged with its 0-based position in the export. */
  datatype Customer = Customer(index: nat, email: string, name: string, phone: string, location: string)

  /** The customer record `read_customers` builds from row `idx`; a missing
      email or name column raises `KeyError`, reported by the column's name. */
  function ToCustomer(row: Row, idx: nat): (r: Result<Customer, string>)
    ensures EmailColumn !in row ==> r == Err(EmailColumn)
    ensures EmailColumn in row && NameColumn !in row ==> r == Err(NameColumn)
    ensures EmailColumn in row && NameColumn in row ==>
      r == Ok(Customer(idx, row[EmailColumn], row[NameColumn],
                       Get(row, PhoneColumn, ""), Get(row, LocationColumn, "")))
  {
    if EmailColumn !in row then Err(EmailColumn)
    else if NameColumn !in row then Err(NameColumn)
    else Ok(Customer(idx, row[EmailColumn], row[NameColumn],
                     Get(row, PhoneColumn, ""), Get(row, LocationColumn, "")))
  }

  /** The recipients `read_customers` keeps from rows `i` onwards. */
  function CustomersFrom(rows: seq<Row>, start: int, i: nat): Result<seq<Customer>, string>
    decreases |rows| - i
  {
    if i >= |rows| then Ok([])
    else if i < start then CustomersFrom(rows, start, i + 1)
    else match ToCustomer(rows[i], i)
      case Err(e) => Err(e)
      case Ok(c) =>
        match CustomersFrom(rows, start, i + 1)
        case Err(e) => Err(e)
        case Ok(cs) => Ok([c] + cs)
  }

  /** The recipients of a run resuming at `start`. */
  function Customers(rows: seq<Row>, start: int): Result<seq<Customer>, string> {
    CustomersFrom(rows, start, 0)
  }

  function Max(a: int, b: int): int {
    if a < b then b else a
  }

  /** Row `j` is the first row from `first` on that is not a valid
      recipient, and it fails with `e`. */
  predicate FirstFailure(rows: seq<Row>, first: int, j: int, e: string) {
    && first <= j < |rows| && 0 <= j
    && ToCustomer(rows[j], j) == Err(e)
    && forall i :: first <= i < j && 0 <= i ==> ToCustomer(rows[i], i).Ok?
  }

  lemma {:induction false} CustomersFromSpec(rows: seq<Row>, start: int, i: nat)
    requires i <= |rows|
    ensures var first := Max(i, start);
      match CustomersFrom(rows, start, i)
      case Ok(cs) =>
        && |cs| == Max(0, |rows| - first)
        && (forall k :: 0 <= k < |cs| ==> ToCustomer(rows[first + k], first + k) == Ok(cs[k]))
      case Err(e) =>
        exists j :: FirstFailure(rows, first, j, e)
    decreases |rows| - i
  {
    if i < |rows| {
      CustomersFromSpec(rows, start, i + 1);
      var r := CustomersFrom(rows, start, i);
      if i >= start && r.Err? {
        var c := ToCustomer(rows[i], i);
        if c.Err? {
          assert FirstFailure(rows, i, i, r.error);
        } else {
          var j :| FirstFailure(rows, i + 1, j, r.error);
          assert FirstFailure(rows, i, j, r.error);
        }
      }
    }
  }

  /** The rows at positions `>= start`, in order, each keeping its position
      as its index; the first of them that lacks a required column makes the
      whole read fail. */
  lemma CustomersSpec(rows: seq<Row>, start: int)
    ensures var first := Max(0, start);
      match Customers(rows, start)
      case Ok(cs) =>
        && |cs| == Max(0, |rows| - first)
        && (forall k :: 0 <= k < |cs| ==> cs[k].index == first + k)
        && (forall k :: 0 <= k < |cs| ==> ToCustomer(rows[first + k], first + k) == Ok(cs[k]))
      case Err(e) =>
        exists j :: FirstFailure(rows, first, j, e)
  {
    CustomersFromSpec(rows, start, 0);
    var first := Max(0, start);
    match Customers(rows, start)
    case Ok(cs) =>
      forall k | 0 <= k < |cs| ensures cs[k].index == first + k {
        assert ToCustomer(rows[Max(0, start) + k], Max(0, start) + k) == Ok(cs[k]);
      }
    case Err(e) =>
  }

  /** `read_customers`: the export's text, one byte-order mark stripped, is
      parsed into rows and every row from `start` on becomes a recipient. */
  method ReadCustomers(content: string, parse: string -> seq<Row>, start: int)
    returns (r: Result<seq<Customer>, string>)
    ensures r == Customers(parse(StripBom(content)), start)
  {
    var rows := parse(StripBom(content));
    var customers: seq<Customer> := [];
    assert Prepend([], CustomersFrom(rows, start, 0)) == CustomersFrom(rows, start, 0) by {
      if CustomersFrom(rows, start, 0).Ok? { assert [] + CustomersFrom(rows, start, 0).value == CustomersFrom(rows, start, 0).value; }
    }
    for idx := 0 to |rows|
      invariant Customers(rows, start) == Prepend(customers, CustomersFrom(rows, start, idx))
    {
      if idx >= start {
        var c := ToCustomer(rows[idx], idx);
        if c.Err? {
          return Err(c.error);
        }
        PrependStep(customers, c.value, CustomersFrom(rows, start, idx + 1));
        customers := customers + [c.value];
      }
    }
    assert customers + [] == customers;
    return Ok(customers);
  }

  lemma PrependStep(prefix: seq<Customer>, c: Customer, rest: Result<seq<Customer>, string>)
    ensures Prepend(prefix, match rest case Err(e) => Err(e) case Ok(cs) => Ok([c] + cs))
         == Prepend(prefix + [c], rest)
  {
    if rest.Ok? {
      assert prefix + ([c] + rest.value) == prefix + [c] + rest.value;
    }
  }

  function Prepend(prefix: seq<Customer>, r: Result<seq<Customer>, string>): Result<seq<Customer>, string> {
    match r
    case Ok(cs) => Ok(prefix + cs)
    case Err(e) => Err(e)
  }

  // ------------------------------------------------------- personalisation

  const Placeholder := "{{CUSTOMER_NAME}}"
  const DefaultFirstName := "amigo"
  /** What `str()` of the `IndexError` from `[][0]` reads. */
  const IndexErrorText := "list index out of range"

  /** `to_name.split()[0] if to_name else "amigo"`; a name made only of
      whitespace splits into no words and the indexing raises. */
  function FirstName(name: string): (r: Result<string, string>)
    ensures name == [] ==> r == Ok(DefaultFirstName)
    ensures name != [] && AllWhitespace(name) ==> r == Err(IndexErrorText)
    ensures !AllWhitespace(name) ==> r.Ok? && r.value != [] && NoWhitespace(r.value)
  {
    if name == [] then Ok(DefaultFirstName)
    else
      var words := Split(name);
      if words == [] then Err(IndexErrorText) else Ok(words[0])
  }

  /** The first name is the run of non-whitespace characters that starts at
      the first non-whitespace character of the name. */
  lemma FirstNameIsLeadingWord(name: string, i: nat)
    requires i < |name| && AllWhitespace(name[..i]) && !IsWhitespace(name[i])
    ensures FirstName(name) == Ok(Token(name[i..]))
  {
    FirstWordAt(name, i);
  }

  /** The template with every placeholder replaced by the first name. */
  function Personalize(name: string, template: string): Result<string, string> {
    match FirstName(name)
    case Err(e) => Err(e)
    case Ok(first) => Ok(Replace(template, Placeholder, first))
  }

  /** A template without the placeholder goes out unchanged. */
  lemma PersonalizeWithoutPlaceholder(name: string, template: string)
    requires FirstName(name).Ok?
    requires forall i: nat :: !MatchAt(template, Placeholder, i)
    ensures Personalize(name, template) == Ok(template)
  {
    ReplaceAbsent(template, Placeholder, FirstName(name).value);
  }

  /** Text up to the first placeholder is kept, the placeholder becomes the
      first name, and the rest of the template is personalised the same way. */
  lemma PersonalizeAtFirstPlaceholder(name: string, template: string, k: nat)
    requires FirstName(name).Ok?
    requires MatchAt(template, Placeholder, k)
    requires forall i: nat :: i < k ==> !MatchAt(template, Placeholder, i)
    ensures Personalize(name, template).Ok?
    ensures Personalize(name, template).value ==
      template[..k] + FirstName(name).value
      + Personalize(name, template[k + |Placeholder|..]).value
  {
    ReplaceFirst(template, Placeholder, FirstName(name).value, k);
  }

  // ------------------------------------------------------ classification

  /** What the provider call does, abstracted: it returns a status code, or
      something on the way (building the message or sending it) raises an
      exception with the given text. */
  datatype SendReply = Status(code: int) | Raised(message: string)

  /** `send_email`'s `(success, error)` pair: `(True, None)` or
      `(False, reason)`. */
  datatype Attempt = Sent | Failed(reason: string)

  const StatusPrefix := "Status code: "

  predicate Accepted(code: int) {
    code == 200 || code == 201 || code == 202
  }

  function StatusReason(code: int): string {
    StatusPrefix + IntToString(code)
  }

  /** `send_email`: personalise, call the provider, classify the outcome. */
  function SendEmail(name: string, template: string, reply: SendReply): (r: Attempt)
    ensures r.Sent? <==> FirstName(name).Ok? && reply.Status? && Accepted(reply.code)
    ensures FirstName(name).Err? ==> r == Failed(IndexErrorText)
    ensures FirstName(name).Ok? && reply.Raised? ==> r == Failed(reply.message)
  {
    match Personalize(name, template)
    case Err(e) => Failed(e)
    case Ok(html) =>
      match reply
      case Status(code) => if Accepted(code) then Sent else Failed(StatusReason(code))
      case Raised(message) => Failed(message)
  }

  /** A rejected status is reported as "Status code: " followed by the
      code, and the code can be read back from the reason. */
  lemma RejectedStatusReason(name: string, template: string, code: int, other: int)
    requires FirstName(name).Ok? && !Accepted(code)
    ensures SendEmail(name, template, Status(code)) == Failed(StatusReason(code))
    ensures StatusReason(code)[..|StatusPrefix|] == StatusPrefix
    ensures StatusReason(other) == StatusReason(code) ==> other == code
  {
    if StatusReason(other) == StatusReason(code) {
      assert IntToString(other) == StatusReason(other)[|StatusPrefix|..];
      IntToStringInjective(other, code);
    }
  }
}

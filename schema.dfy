/**
 * The validation layer both forms share: the issues a zod object schema
 * reports, the default English message of each issue, and how the messages
 * of one failed parse are joined into the text of an error popup.
 */
module Schema {

  /** One violated field rule, tagged by the rule that failed. */
  datatype Issue =
    | InvalidEmail                                      // z.string().email()
    | StringTooShort(minimum: nat)                      // z.string().min(n)
    | StringTooLong(maximum: nat)                       // z.string().max(n)
    | InvalidEnumValue(options: seq<string>, received: string)  // z.enum([...])
    | ArrayTooShort(minimum: nat)                       // z.array(...).min(n)

  /** Separator the forms use to join the messages of one failed parse. */
  const MessageSeparator: string := ", "

  /** Decimal digits of a natural number, most significant first. */
  function DecimalText(n: nat): (r: string)
    ensures |r| >= 1
    ensures forall k :: 0 <= k < |r| ==> '0' <= r[k] <= '9'
    ensures DecimalValue(r) == n
  {
    if n < 10 then [Digit(n)] else DecimalText(n / 10) + [Digit(n % 10)]
  }

  /** The character of a decimal digit. */
  function Digit(d: nat): (c: char)
    requires d < 10
  {
    ('0' as int + d) as char
  }

  /** Reference reading of a string of decimal digits as a number. */
  function DecimalValue(s: string): nat
  {
    if s == [] then 0
    else
      var d := s[|s| - 1] as int - '0' as int;
      DecimalValue(s[..|s| - 1]) * 10 + (if 0 <= d then d else 0)
  }

  /** Each option of an enumeration in single quotes. */
  function Quoted(options: seq<string>): (r: seq<string>)
    ensures |r| == |options|
    ensures forall k :: 0 <= k < |options| ==> r[k] == "'" + options[k] + "'"
  {
    if options == [] then [] else ["'" + options[0] + "'"] + Quoted(options[1..])
  }

  /** The default English message of an issue. */
  function Message(issue: Issue): string
  {
    match issue
    case InvalidEmail => "Invalid email"
    case StringTooShort(n) => "String must contain at least " + DecimalText(n) + " character(s)"
    case StringTooLong(n) => "String must contain at most " + DecimalText(n) + " character(s)"
    case InvalidEnumValue(options, received) =>
      "Invalid enum value. Expected " + Join(Quoted(options), " | ") + ", received '" + received + "'"
    case ArrayTooShort(n) => "Array must contain at least " + DecimalText(n) + " element(s)"
  }

  /** The message of every issue, in the order the issues were reported. */
  function Messages(issues: seq<Issue>): (ms: seq<string>)
    ensures |ms| == |issues|
    ensures forall k :: 0 <= k < |issues| ==> ms[k] == Message(issues[k])
  {
    if issues == [] then [] else [Message(issues[0])] + Messages(issues[1..])
  }

  /** `parts.join(sep)`: the parts with `sep` between each neighbouring pair. */
  function Join(parts: seq<string>, sep: string): string
  {
    if parts == [] then ""
    else if |parts| == 1 then parts[0]
    else parts[0] + sep + Join(parts[1..], sep)
  }

  /**
   * Reference definition of joining, built from the last part backwards:
   * the join of all but the last part, the separator, then the last part.
   */
  function JoinFromEnd(parts: seq<string>, sep: string): string
  {
    if parts == [] then ""
    else if |parts| == 1 then parts[0]
    else JoinFromEnd(parts[..|parts| - 1], sep) + sep + parts[|parts| - 1]
  }

  /** The text of the error popup for the issues of one failed parse. */
  function ErrorText(issues: seq<Issue>): string
  {
    Join(Messages(issues), MessageSeparator)
  }

  /** Appending one part to a non-empty list adds the separator and that part at the end. */
  lemma {:induction false} JoinSnoc(parts: seq<string>, last: string, sep: string)
    requires parts != []
    ensures Join(parts + [last], sep) == Join(parts, sep) + sep + last
  {
    if |parts| == 1 {
      assert parts + [last] == [parts[0], last];
    } else {
      assert (parts + [last])[1..] == parts[1..] + [last];
      JoinSnoc(parts[1..], last, sep);
    }
  }

  /** Joining from the front and joining from the end give the same text. */
  lemma {:induction false} JoinAgreesWithJoinFromEnd(parts: seq<string>, sep: string)
    ensures Join(parts, sep) == JoinFromEnd(parts, sep)
  {
    if |parts| >= 2 {
      var init := parts[..|parts| - 1];
      JoinAgreesWithJoinFromEnd(init, sep);
      assert init + [parts[|parts| - 1]] == parts;
      JoinSnoc(init, parts[|parts| - 1], sep);
    }
  }

  /** A single issue's error text is exactly its message, with no separator. */
  lemma SingleIssueText(issue: Issue)
    ensures ErrorText([issue]) == Message(issue)
  {
  }
}

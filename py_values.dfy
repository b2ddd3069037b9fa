/** Python values, exceptions and the few built-ins (str(), str.strip(), str.join) the
    pipeline's glue code relies on. Arguments that the Python code type-checks at run time
    with isinstance are modelled as a `Value`, so that the error paths stay in the model. */
module PyValues {

  /** A Python object as far as the pipeline's argument checks can tell them apart. */
  datatype Value =
    | None
    | Bool(b: bool)
    | Int(i: int)
    | Str(s: string)
    | List(items: seq<Value>)
    /** a LangChain Document */
    | Doc(pageContent: string)
    /** any other object; `text` is what str() gives for it */
    | Object(text: string)

  /** A Python dict with string keys, such as a news article. */
  type Dict = map<string, Value>

  /** The exception classes the modelled code raises or lets escape. */
  datatype Exception = ValueError | TypeError | AttributeError | KeyError | IndexError

  datatype Option<+T> = Nothing | Some(value: T)

  /** A call that either returns a value or raises. */
  datatype Result<+T> = Ok(value: T) | Err(error: Exception)

  /** A call that returns None or raises. */
  datatype Outcome = Pass | Raise(error: Exception)

  /** isinstance(v, int): bool is a subclass of int in Python. */
  predicate IsInt(v: Value) {
    v.Int? || v.Bool?
  }

  /** The integer value of an int or a bool (True == 1, False == 0). */
  function IntOf(v: Value): int
    requires IsInt(v)
  {
    if v.Int? then v.i else if v.b then 1 else 0
  }

  /** The characters str.strip() removes when given no argument (str.isspace). */
  predicate IsWhitespace(c: char) {
    || '\t' <= c <= '\r'
    || '\U{1c}' <= c <= ' '
    || c == '\U{85}' || c == '\U{a0}' || c == '\U{1680}'
    || '\U{2000}' <= c <= '\U{200a}'
    || c == '\U{2028}' || c == '\U{2029}' || c == '\U{202f}' || c == '\U{205f}' || c == '\U{3000}'
  }

  /** `not s.strip()`: the string is empty or holds only whitespace. */
  predicate IsBlank(s: string) {
    forall k :: 0 <= k < |s| ==> IsWhitespace(s[k])
  }

  function DigitChar(d: nat): char
    requires d < 10
  {
    "0123456789"[d]
  }

  /** str(n) for a non-negative int. */
  function NatToString(n: nat): (s: string)
    ensures |s| >= 1
    ensures forall k :: 0 <= k < |s| ==> '0' <= s[k] <= '9'
    decreases n
  {
    if n < 10 then [DigitChar(n)] else NatToString(n / 10) + [DigitChar(n % 10)]
  }

  /** The number a string of decimal digits denotes (the inverse of NatToString). */
  function DigitsValue(s: string): nat
    requires forall k :: 0 <= k < |s| ==> '0' <= s[k] <= '9'
  {
    if |s| == 0 then 0 else 10 * DigitsValue(s[..|s| - 1]) + ((s[|s| - 1] as int) - ('0' as int))
  }

  /** Reading back what str() printed for a non-negative int gives the int. */
  lemma {:induction false} NatToStringRoundTrip(n: nat)
    ensures DigitsValue(NatToString(n)) == n
    decreases n
  {
    var s := NatToString(n);
    if n >= 10 {
      NatToStringRoundTrip(n / 10);
      assert s[..|s| - 1] == NatToString(n / 10);
    }
  }

  /** str(i) for any int. */
  function IntToString(i: int): string {
    if i < 0 then "-" + NatToString(-i) else NatToString(i)
  }

  /** sep.join(parts). */
  function Join(sep: string, parts: seq<string>): string {
    if |parts| == 0 then ""
    else if |parts| == 1 then parts[0]
    else parts[0] + sep + Join(sep, parts[1..])
  }

  /** Joining one more part adds the separator and that part at the end. */
  lemma {:induction false} JoinAppend(sep: string, parts: seq<string>, last: string)
    requires |parts| >= 1
    ensures Join(sep, parts + [last]) == Join(sep, parts) + sep + last
    decreases |parts|
  {
    if |parts| > 1 {
      assert (parts + [last])[1..] == parts[1..] + [last];
      JoinAppend(sep, parts[1..], last);
    }
  }

  /** A join of at least two parts starts with the first part, the separator and the second
      part. */
  lemma JoinStartsWith(sep: string, parts: seq<string>)
    requires |parts| >= 2
    ensures var head := parts[0] + sep + parts[1];
            |Join(sep, parts)| >= |head| && Join(sep, parts)[..|head|] == head
  {
    var rest := parts[1..];
    assert rest[0] == parts[1];
    if |rest| == 1 {
      assert Join(sep, parts) == parts[0] + sep + parts[1];
    } else {
      assert Join(sep, rest) == parts[1] + sep + Join(sep, rest[1..]);
      assert Join(sep, parts) == (parts[0] + sep + parts[1]) + (sep + Join(sep, rest[1..]));
    }
  }

  /** str(v). Inside a list, elements are shown with repr(). */
  function StrOf(v: Value): string
    decreases v, 0
  {
    match v
    case None => "None"
    case Bool(b) => if b then "True" else "False"
    case Int(i) => IntToString(i)
    case Str(s) => s
    case List(items) => "[" + Join(", ", seq(|items|, k requires 0 <= k < |items| => ReprOf(items[k]))) + "]"
    case Doc(c) => "page_content='" + c + "' metadata={}"
    case Object(t) => t
  }

  /** repr(v); differs from str() for strings and Documents. */
  function ReprOf(v: Value): string
    decreases v, 1
  {
    match v
    case Str(s) => "'" + s + "'"
    case Doc(c) => "Document(page_content='" + c + "', metadata={})"
    case _ => StrOf(v)
  }
}

/** The fragment of the zod schema library that the registration validators
    use, as a small rule interpreter. A schema is an ordered list of fields;
    validating form values yields the list of issues zod would report, in
    field order, and the values are accepted exactly when that list is empty.

    Zod behaviour kept here:
    - a required string field that is `undefined` reports the single issue
      "Required", whatever checks it carries;
    - a present string runs ALL of its checks and reports every failing one,
      in declaration order (checks do not short-circuit);
    - `.optional()` accepts `undefined`; a `.refine` on an optional field sees
      `undefined` as well as strings.
 */
module Zod {
  import opened Wrappers
  import opened JsString

  /** The values held by a form: field name to string. A name that is not a
      key is an `undefined` field. */
  type FormValues = map<string, string>

  /** Reads one field of the form values. */
  function Get(values: FormValues, name: string): Option<string> {
    if name in values then Some(values[name]) else None
  }

  /** One check chained on `z.string()`. */
  datatype Check =
    | MinLength(min: nat, message: string)   // .min(n, message)
    | Email(message: string)                 // .email(message)

  /** The rule attached to one field. */
  datatype Rule =
    | Str(checks: seq<Check>)                // z.string().<checks>
    | OptStr                                 // z.string().optional()
    | OptDigits(message: string)             // z.string().optional().refine(v => !v || /^\d+$/.test(v), message)

  datatype Field = Field(name: string, rule: Rule)

  type Schema = seq<Field>

  /** One validation issue: the field it is about and its message. */
  datatype Issue = Issue(path: string, message: string)

  /** Zod's message for a required string that is `undefined`. */
  const RequiredMessage: string := "Required"

  /** Whether one check accepts a present string. `.min` compares JavaScript's
      `.length`; the e-mail format test is the uninterpreted `emailOk`. */
  predicate CheckPasses(c: Check, s: string, emailOk: string -> bool) {
    match c
    case MinLength(n, _) => JsLength(s) >= n
    case Email(_) => emailOk(s)
  }

  /** The messages of the failing checks, in declaration order: a single
      check reports its own message exactly when it fails, and the messages of
      a chain are those of its parts, in order (CheckMessagesAppend). */
  function CheckMessages(checks: seq<Check>, s: string, emailOk: string -> bool): (r: seq<string>)
    ensures |r| <= |checks|
    ensures r == [] <==> forall i :: 0 <= i < |checks| ==> CheckPasses(checks[i], s, emailOk)
    ensures |checks| == 1 ==> r == (if CheckPasses(checks[0], s, emailOk) then [] else [checks[0].message])
  {
    if checks == [] then []
    else
      var rest := CheckMessages(checks[1..], s, emailOk);
      assert forall i :: 1 <= i < |checks| ==> checks[i] == checks[1..][i - 1];
      if CheckPasses(checks[0], s, emailOk) then rest else [checks[0].message] + rest
  }

  /** Chaining two lists of checks reports the first list's messages, then
      the second's. */
  lemma {:induction false} CheckMessagesAppend(a: seq<Check>, b: seq<Check>, s: string, emailOk: string -> bool)
    ensures CheckMessages(a + b, s, emailOk) == CheckMessages(a, s, emailOk) + CheckMessages(b, s, emailOk)
  {
    if a == [] {
      assert a + b == b;
    } else {
      assert (a + b)[0] == a[0];
      assert (a + b)[1..] == a[1..] + b;
      CheckMessagesAppend(a[1..], b, s, emailOk);
    }
  }

  /** Declarative acceptance of one field's value by its rule. */
  predicate Accepts(rule: Rule, v: Option<string>, emailOk: string -> bool) {
    match rule
    case Str(checks) => v.Some? && forall i :: 0 <= i < |checks| ==> CheckPasses(checks[i], v.value, emailOk)
    case OptStr => true
    case OptDigits(_) => v == None || v.value == [] || AllDigits(v.value)
  }

  /** The messages zod reports for one field. The refinement is evaluated as
      makeRegistrationValidation.ts writes it, `!v || /^\d+$/.test(v)`. */
  function RuleMessages(rule: Rule, v: Option<string>, emailOk: string -> bool): (r: seq<string>)
    ensures r == [] <==> Accepts(rule, v, emailOk)
    ensures rule.Str? && v == None ==> r == [RequiredMessage]
    ensures rule.OptDigits? && r != [] ==> r == [rule.message]
  {
    match rule
    case Str(checks) =>
      if v == None then [RequiredMessage] else CheckMessages(checks, v.value, emailOk)
    case OptStr => []
    case OptDigits(message) =>
      DigitsRegexCorrect(v.GetOr([]));
      if !Truthy(v) || MatchesDigitsRegex(v.value) then [] else [message]
  }

  /** A required string with `.min(1)` accepts exactly the non-empty strings. */
  lemma RequiredNonEmpty(message: string, v: Option<string>, emailOk: string -> bool)
    ensures Accepts(Str([MinLength(1, message)]), v, emailOk) <==> v.Some? && v.value != []
  {
    var checks := [MinLength(1, message)];
    if v.Some? {
      assert CheckPasses(checks[0], v.value, emailOk) <==> v.value != [];
      assert (forall i :: 0 <= i < |checks| ==> CheckPasses(checks[i], v.value, emailOk))
         <==> CheckPasses(checks[0], v.value, emailOk);
    }
  }

  /** The set of field names a schema declares. */
  function Names(schema: Schema): set<string> {
    set i | 0 <= i < |schema| :: schema[i].name
  }

  /** The issues of one field: one per message of its rule, all on its path. */
  function FieldIssues(f: Field, values: FormValues, emailOk: string -> bool): seq<Issue> {
    var own := RuleMessages(f.rule, Get(values, f.name), emailOk);
    seq(|own|, k requires 0 <= k < |own| => Issue(f.name, own[k]))
  }

  /** The issues zod reports for `values`, field by field in schema order. */
  function Issues(schema: Schema, values: FormValues, emailOk: string -> bool): (r: seq<Issue>)
    ensures forall k :: 0 <= k < |r| ==> r[k].path in Names(schema)
    ensures r == [] <==> forall i :: 0 <= i < |schema| ==> Accepts(schema[i].rule, Get(values, schema[i].name), emailOk)
  {
    if schema == [] then []
    else
      var rest := Issues(schema[1..], values, emailOk);
      assert forall i :: 1 <= i < |schema| ==> schema[i] == schema[1..][i - 1];
      NamesOfTail(schema);
      FieldIssues(schema[0], values, emailOk) + rest
  }

  lemma NamesOfTail(schema: Schema)
    requires schema != []
    ensures Names(schema) == {schema[0].name} + Names(schema[1..])
  {
    forall n | n in Names(schema[1..]) ensures n in Names(schema) {
      var i :| 0 <= i < |schema[1..]| && schema[1..][i].name == n;
      assert schema[i + 1].name == n;
    }
    forall n | n in Names(schema) ensures n in {schema[0].name} + Names(schema[1..]) {
      var i :| 0 <= i < |schema| && schema[i].name == n;
      if i > 0 {
        assert schema[1..][i - 1].name == n;
      }
    }
  }

  /** `schema.safeParse(values).success`. */
  predicate Valid(schema: Schema, values: FormValues, emailOk: string -> bool) {
    Issues(schema, values, emailOk) == []
  }

  /** The messages among `issues` that are about the field `name`, in order;
      the first of them is the one a form displays under that field. */
  function MessagesAt(issues: seq<Issue>, name: string): seq<string> {
    if issues == [] then []
    else (if issues[0].path == name then [issues[0].message] else []) + MessagesAt(issues[1..], name)
  }

  lemma {:induction false} MessagesAtAppend(a: seq<Issue>, b: seq<Issue>, name: string)
    ensures MessagesAt(a + b, name) == MessagesAt(a, name) + MessagesAt(b, name)
  {
    if a == [] {
      assert a + b == b;
    } else {
      assert (a + b)[1..] == a[1..] + b;
      MessagesAtAppend(a[1..], b, name);
    }
  }

  /** Messages of a block of issues that all lie on one path. */
  lemma {:induction false} MessagesAtOnePath(r: seq<Issue>, path: string, ms: seq<string>, name: string)
    requires |r| == |ms|
    requires forall k :: 0 <= k < |r| ==> r[k] == Issue(path, ms[k])
    ensures MessagesAt(r, name) == if path == name then ms else []
  {
    if r != [] {
      MessagesAtOnePath(r[1..], path, ms[1..], name);
    }
  }

  /** A field's own issues carry its rule's messages under its name only. */
  lemma MessagesOfFieldIssues(f: Field, values: FormValues, emailOk: string -> bool, name: string)
    ensures MessagesAt(FieldIssues(f, values, emailOk), name)
         == if f.name == name then RuleMessages(f.rule, Get(values, f.name), emailOk) else []
  {
    var own := RuleMessages(f.rule, Get(values, f.name), emailOk);
    MessagesAtOnePath(FieldIssues(f, values, emailOk), f.name, own, name);
  }

  /** No two fields of the schema share a name (true of every zod object). */
  predicate UniqueNames(schema: Schema) {
    forall i, j :: 0 <= i < j < |schema| ==> schema[i].name != schema[j].name
  }

  /** In a schema with distinct names, the issues about one field are exactly
      the messages of that field's own rule. */
  lemma {:induction false} MessagesOfField(schema: Schema, values: FormValues, emailOk: string -> bool, j: nat)
    requires UniqueNames(schema)
    requires j < |schema|
    ensures MessagesAt(Issues(schema, values, emailOk), schema[j].name)
         == RuleMessages(schema[j].rule, Get(values, schema[j].name), emailOk)
  {
    if j == 0 {
      MessagesOfFirst(schema, values, emailOk);
    } else {
      var name := schema[j].name;
      var tail := schema[1..];
      var head := FieldIssues(schema[0], values, emailOk);
      var rest := Issues(tail, values, emailOk);
      IssuesUnfold(schema, values, emailOk);
      MessagesAtAppend(head, rest, name);
      assert schema[0].name != name;
      MessagesOfFieldIssues(schema[0], values, emailOk, name);
      TailOfUnique(schema);
      assert tail[j - 1] == schema[j];
      MessagesOfField(tail, values, emailOk, j - 1);
      assert [] + MessagesAt(rest, name) == MessagesAt(rest, name);
    }
  }

  /** The first field's case of MessagesOfField. */
  lemma MessagesOfFirst(schema: Schema, values: FormValues, emailOk: string -> bool)
    requires UniqueNames(schema) && schema != []
    ensures MessagesAt(Issues(schema, values, emailOk), schema[0].name)
         == RuleMessages(schema[0].rule, Get(values, schema[0].name), emailOk)
  {
    var name := schema[0].name;
    var head := FieldIssues(schema[0], values, emailOk);
    var rest := Issues(schema[1..], values, emailOk);
    var own := RuleMessages(schema[0].rule, Get(values, name), emailOk);
    IssuesUnfold(schema, values, emailOk);
    MessagesAtAppend(head, rest, name);
    MessagesOfFieldIssues(schema[0], values, emailOk, name);
    TailOfUnique(schema);
    MessagesAbsent(schema[1..], values, emailOk, name);
    assert own + [] == own;
  }

  lemma IssuesUnfold(schema: Schema, values: FormValues, emailOk: string -> bool)
    requires schema != []
    ensures Issues(schema, values, emailOk) == FieldIssues(schema[0], values, emailOk) + Issues(schema[1..], values, emailOk)
  {
  }

  /** Dropping the first field of a schema with distinct names leaves distinct
      names, none of them the first field's. */
  lemma TailOfUnique(schema: Schema)
    requires UniqueNames(schema) && schema != []
    ensures UniqueNames(schema[1..])
    ensures schema[0].name !in Names(schema[1..])
  {
    var tail := schema[1..];
    forall i | 0 <= i < |tail| ensures tail[i].name != schema[0].name {
      assert tail[i] == schema[i + 1];
    }
    forall a, b | 0 <= a < b < |tail| ensures tail[a].name != tail[b].name {
      assert tail[a] == schema[a + 1] && tail[b] == schema[b + 1];
    }
  }

  /** A field name the schema does not declare has no issues. */
  lemma MessagesAbsent(schema: Schema, values: FormValues, emailOk: string -> bool, name: string)
    requires name !in Names(schema)
    ensures MessagesAt(Issues(schema, values, emailOk), name) == []
  {
    var r := Issues(schema, values, emailOk);
    MessagesNoPath(r, name);
  }

  lemma {:induction false} MessagesNoPath(r: seq<Issue>, name: string)
    requires forall k :: 0 <= k < |r| ==> r[k].path != name
    ensures MessagesAt(r, name) == []
  {
    if r != [] {
      MessagesNoPath(r[1..], name);
    }
  }

  /** Zod objects strip unknown keys: a field the schema does not declare can
      be set or removed without changing any issue. */
  lemma {:induction false} IssuesIgnoreUndeclared(schema: Schema, values: FormValues, emailOk: string -> bool, name: string, v: Option<string>)
    requires name !in Names(schema)
    ensures Issues(schema, Put(values, name, v), emailOk) == Issues(schema, values, emailOk)
  {
    if schema != [] {
      NamesOfTail(schema);
      assert Get(Put(values, name, v), schema[0].name) == Get(values, schema[0].name);
      IssuesIgnoreUndeclared(schema[1..], values, emailOk, name, v);
    }
  }

  /** Sets the field `name` to `v` (`None` removes it). */
  function Put(values: FormValues, name: string, v: Option<string>): (r: FormValues)
    ensures Get(r, name) == v
    ensures forall n :: n != name ==> Get(r, n) == Get(values, n)
  {
    match v
    case Some(s) => values[name := s]
    case None => values - {name}
  }
}

/**
 * The JSON form of a task as it is stored in Redis (json.Marshal and
 * json.Unmarshal of models.Task), abstracted to a stream of tokens: one per
 * scalar field, and a count before each list. What matters to the storage
 * layer is that decoding gives back what was encoded, that decoding the empty
 * input fails, and that marshalling fails for due dates outside the years
 * 0 to 9999, which time.Time refuses to write as JSON.
 */
module Codec {
  import opened Outcomes
  import opened ObjectIds
  import opened Models

  datatype Token =
    | IdToken(id: ObjectId)
    | Text(s: string)
    | Null
    | Millis(ms: int)
    | Count(n: nat)

  /** The bytes a Redis entry holds. */
  type Payload = seq<Token>

  /** 0000-01-01T00:00:00Z and 10000-01-01T00:00:00Z in milliseconds since the epoch. */
  const MinJsonMillis: int := -62167219200000
  const EndJsonMillis: int := 253402300800000

  /** A due date time.Time can write as JSON: its year lies in [0, 9999]. */
  predicate JsonDate(ms: DateTime) {
    MinJsonMillis <= ms < EndJsonMillis
  }

  function EncodeOptional(o: Option<string>): Token {
    match o
    case None => Null
    case Some(s) => Text(s)
  }

  function DecodeOptional(tok: Token): (r: Option<Option<string>>)
    ensures r.Some? ==> EncodeOptional(r.value) == tok
  {
    match tok
    case Null => Some(None)
    case Text(s) => Some(Some(s))
    case _ => None
  }

  /** An absent or present optional text field decodes back to what was encoded. */
  lemma DecodeEncodeOptional(o: Option<string>)
    ensures DecodeOptional(EncodeOptional(o)) == Some(o)
  {
  }

  function EncodeStrings(xs: seq<string>): (p: Payload)
    ensures |p| == |xs|
  {
    if xs == [] then [] else [Text(xs[0])] + EncodeStrings(xs[1..])
  }

  /** Reads n strings off the front of p and returns them with what is left. */
  function DecodeStrings(n: nat, p: Payload): Option<(seq<string>, Payload)> {
    if n == 0 then Some(([], p))
    else if p == [] || !p[0].Text? then None
    else
      match DecodeStrings(n - 1, p[1..])
      case None => None
      case Some((xs, rest)) => Some(([p[0].s] + xs, rest))
  }

  function EncodeSubTasks(sts: seq<SubTask>): (p: Payload)
    ensures |p| == 2 * |sts|
  {
    if sts == [] then []
    else [Text(sts[0].title), Text(sts[0].status)] + EncodeSubTasks(sts[1..])
  }

  /** Reads n sub-tasks off the front of p and returns them with what is left. */
  function DecodeSubTasks(n: nat, p: Payload): Option<(seq<SubTask>, Payload)> {
    if n == 0 then Some(([], p))
    else if |p| < 2 || !p[0].Text? || !p[1].Text? then None
    else
      match DecodeSubTasks(n - 1, p[2..])
      case None => None
      case Some((sts, rest)) => Some(([SubTask(p[0].s, p[1].s)] + sts, rest))
  }

  /**
   * The JSON text of a task in a fixed order: id, title, description, status, the
   * due date, then the assignees and the sub-tasks, each list behind its count.
   * (encoding/json writes the assignees before the due date; the order of the
   * tokens carries no meaning here, only that Decode reads them back.)
   */
  function Encode(t: Task): (p: Payload)
    ensures |p| == 7 + |t.assignedTo| + 2 * |t.subTasks|
  {
    [IdToken(t.id), EncodeOptional(t.title), EncodeOptional(t.description),
     Text(t.status), Millis(t.dueDate), Count(|t.assignedTo|)]
    + EncodeStrings(t.assignedTo)
    + [Count(|t.subTasks|)]
    + EncodeSubTasks(t.subTasks)
  }

  /** json.Unmarshal into a Task: fails on anything that is not a whole encoded task, the empty input included. */
  function Decode(p: Payload): (r: Option<Task>)
    ensures |p| < 7 ==> r == None
  {
    if |p| < 7 || !p[0].IdToken? || !p[3].Text? || !p[4].Millis? || !p[5].Count? then None
    else
      match (DecodeOptional(p[1]), DecodeOptional(p[2]), DecodeStrings(p[5].n, p[6..]))
      case (Some(title), Some(description), Some((assignees, rest))) =>
        if rest == [] || !rest[0].Count? then None
        else (
          match DecodeSubTasks(rest[0].n, rest[1..])
          case Some((sts, left)) =>
            if left == [] then Some(Task(p[0].id, title, description, p[3].s, assignees, p[4].ms, sts))
            else None
          case None => None)
      case _ => None
  }

  /** json.Marshal of a task: fails exactly when the due date has no JSON form. */
  function Marshal(t: Task): (r: Option<Payload>)
    ensures r.Some? <==> JsonDate(t.dueDate)
    ensures r.Some? ==> Decode(r.value) == Some(t)
  {
    if JsonDate(t.dueDate) then (DecodeEncode(t); Some(Encode(t))) else None
  }

  lemma {:induction false} DecodeEncodeStrings(xs: seq<string>, rest: Payload)
    ensures DecodeStrings(|xs|, EncodeStrings(xs) + rest) == Some((xs, rest))
  {
    if xs != [] {
      var p := EncodeStrings(xs) + rest;
      assert p[0] == Text(xs[0]);
      assert p[1..] == EncodeStrings(xs[1..]) + rest;
      DecodeEncodeStrings(xs[1..], rest);
      assert DecodeStrings(|xs| - 1, p[1..]) == Some((xs[1..], rest));
      assert [xs[0]] + xs[1..] == xs;
    } else {
      assert EncodeStrings(xs) + rest == rest;
    }
  }

  lemma {:induction false} DecodeEncodeSubTasks(sts: seq<SubTask>, rest: Payload)
    ensures DecodeSubTasks(|sts|, EncodeSubTasks(sts) + rest) == Some((sts, rest))
  {
    if sts != [] {
      var p := EncodeSubTasks(sts) + rest;
      assert p[0] == Text(sts[0].title) && p[1] == Text(sts[0].status);
      assert p[2..] == EncodeSubTasks(sts[1..]) + rest;
      DecodeEncodeSubTasks(sts[1..], rest);
      assert DecodeSubTasks(|sts| - 1, p[2..]) == Some((sts[1..], rest));
      assert [SubTask(sts[0].title, sts[0].status)] + sts[1..] == sts;
    } else {
      assert EncodeSubTasks(sts) + rest == rest;
    }
  }

  /** The JSON form of a task: six scalar tokens, then the assignees, then the sub-tasks behind their count. */
  lemma EncodeParts(t: Task)
    ensures var p := Encode(t);
            && p[0] == IdToken(t.id) && p[1] == EncodeOptional(t.title) && p[2] == EncodeOptional(t.description)
            && p[3] == Text(t.status) && p[4] == Millis(t.dueDate) && p[5] == Count(|t.assignedTo|)
            && p[6..] == EncodeStrings(t.assignedTo) + ([Count(|t.subTasks|)] + EncodeSubTasks(t.subTasks))
  {
    var p := Encode(t);
    var head := [IdToken(t.id), EncodeOptional(t.title), EncodeOptional(t.description),
                 Text(t.status), Millis(t.dueDate), Count(|t.assignedTo|)];
    assert p == head + (EncodeStrings(t.assignedTo) + ([Count(|t.subTasks|)] + EncodeSubTasks(t.subTasks)));
  }

  /** Unmarshalling what was marshalled gives the task back, field for field. */
  lemma DecodeEncode(t: Task)
    ensures Decode(Encode(t)) == Some(t)
  {
    var p := Encode(t);
    var tail := [Count(|t.subTasks|)] + EncodeSubTasks(t.subTasks);
    EncodeParts(t);
    assert DecodeOptional(p[1]) == Some(t.title) && DecodeOptional(p[2]) == Some(t.description);
    DecodeEncodeStrings(t.assignedTo, tail);
    assert DecodeStrings(p[5].n, p[6..]) == Some((t.assignedTo, tail));
    assert tail[1..] == EncodeSubTasks(t.subTasks) + [];
    DecodeEncodeSubTasks(t.subTasks, []);
    assert DecodeSubTasks(|t.subTasks|, tail[1..]) == Some((t.subTasks, []));
  }

  /** Two tasks with the same JSON form are the same task. */
  lemma EncodeInjective(t: Task, u: Task)
    ensures Encode(t) == Encode(u) ==> t == u
  {
    DecodeEncode(t);
    DecodeEncode(u);
  }
}

/** Inventory keys of obligations (internal/application/obligations.go:20-62). */
module Obligations {
  import opened Values
  import opened Records

  function ClassName(c: Class): string {
    match c
    case ClassIntake => "intake"
    case ClassJobLaunch => "job-launch"
    case ClassModelDispatch => "model-dispatch"
    case ClassToolDispatch => "tool-dispatch"
    case ClassBusinessWrite => "business-write"
  }

  function ObligationKey(c: Class, id: string): string { ClassName(c) + "/" + id }

  /** What is before and after the first slash. */
  function Cut(s: string): Option<(string, string)> {
    if s == "" then None
    else if s[0] == '/' then Some(("", s[1..]))
    else
      match Cut(s[1..])
      case None => None
      case Some((before, after)) => Some(([s[0]] + before, after))
  }

  function ClassNamed(name: string): Option<Class> {
    if name == ClassName(ClassIntake) then Some(ClassIntake)
    else if name == ClassName(ClassJobLaunch) then Some(ClassJobLaunch)
    else if name == ClassName(ClassModelDispatch) then Some(ClassModelDispatch)
    else if name == ClassName(ClassToolDispatch) then Some(ClassToolDispatch)
    else if name == ClassName(ClassBusinessWrite) then Some(ClassBusinessWrite)
    else None
  }

  function ParseObligationKey(key: string): Option<(Class, string)> {
    match Cut(key)
    case None => None
    case Some((name, id)) =>
      if id == "" || '/' in id || ClassNamed(name).None? then None else Some((ClassNamed(name).value, id))
  }

  lemma {:induction false} CutJoins(s: string)
    ensures Cut(s).Some? ==> '/' !in Cut(s).value.0 && s == Cut(s).value.0 + "/" + Cut(s).value.1
  {
    if s != "" && s[0] != '/' {
      CutJoins(s[1..]);
      assert s == [s[0]] + s[1..];
    }
  }

  lemma {:induction false} JoinCuts(before: string, after: string)
    requires '/' !in before
    ensures Cut(before + "/" + after) == Some((before, after))
  {
    var s := before + "/" + after;
    if before == "" {
      assert s[1..] == after;
    } else {
      assert s[1..] == before[1..] + "/" + after;
      JoinCuts(before[1..], after);
      assert before == [before[0]] + before[1..];
    }
  }

  lemma NamesAreDistinct(c: Class)
    ensures '/' !in ClassName(c) && ClassNamed(ClassName(c)) == Some(c)
  {
    assert |ClassName(ClassIntake)| == 6 && |ClassName(ClassJobLaunch)| == 10 && |ClassName(ClassModelDispatch)| == 14;
    assert |ClassName(ClassToolDispatch)| == 13 && |ClassName(ClassBusinessWrite)| == 14;
    assert ClassName(ClassModelDispatch)[0] == 'm' && ClassName(ClassBusinessWrite)[0] == 'b';
  }

  /** A key reads back as its class and identity exactly when the identity is not empty
      and has no slash; every other key is refused. */
  lemma KeyReadsBack(c: Class, id: string)
    ensures ParseObligationKey(ObligationKey(c, id)) == if id != "" && '/' !in id then Some((c, id)) else None
  {
    NamesAreDistinct(c);
    JoinCuts(ClassName(c), id);
  }

  /** What parses is the key of what it parsed to. */
  lemma ParsedIsKey(key: string)
    requires ParseObligationKey(key).Some?
    ensures key == ObligationKey(ParseObligationKey(key).value.0, ParseObligationKey(key).value.1)
  {
    CutJoins(key);
  }

  /** Two obligations never share a key. */
  lemma KeysAreDistinct(c: Class, id: string, d: Class, other: string)
    requires ObligationKey(c, id) == ObligationKey(d, other)
    ensures c == d && id == other
  {
    NamesAreDistinct(c);
    NamesAreDistinct(d);
    JoinCuts(ClassName(c), id);
    JoinCuts(ClassName(d), other);
  }
}

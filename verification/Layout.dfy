/** The file names the local store uses inside `.checkpoints`. */
module Layout {
  import opened Text

  const RECORD_SUFFIX := ".checkpoint.json"
  const REGISTRY := ".mcp-sessions.json"
  const IGNORE := ".gitignore"

  function RecordName(skill: string): string { skill + RECORD_SUFFIX }

  predicate IsRecordName(name: string) {
    EndsWith(name, RECORD_SUFFIX) && IsSkillId(name[..|name| - |RECORD_SUFFIX|])
  }

  function LockName(target: string): string { target + ".lock" }

  function TempName(stem: string, pid: string, uuid: string): string {
    "." + stem + "." + pid + "." + uuid + ".tmp"
  }

  lemma RecordNamesAreExact(skill: string)
    requires IsSkillId(skill)
    ensures IsRecordName(RecordName(skill))
    ensures RecordName(skill) != REGISTRY && RecordName(skill) != IGNORE
  {
    var name := RecordName(skill);
    assert name[..|name| - |RECORD_SUFFIX|] == skill;
    assert name[0] == skill[0];
  }

  lemma RecordNamesAreInjective(a: string, b: string)
    requires RecordName(a) == RecordName(b)
    ensures a == b
  {
    CancelSuffix(a, b, RECORD_SUFFIX);
  }

  lemma LockNamesAreInjective(a: string, b: string)
    requires LockName(a) == LockName(b)
    ensures a == b
  {
    CancelSuffix(a, b, ".lock");
  }

  /** No temporary file can stand where a record, the registry or the ignore file is read. */
  lemma TempNamesAreNeverRead(stem: string, pid: string, uuid: string)
    ensures var t := TempName(stem, pid, uuid); !IsRecordName(t) && t != REGISTRY && t != IGNORE
  {
    var t := TempName(stem, pid, uuid);
    assert t[|t| - 1] == 'p';
    assert REGISTRY[|REGISTRY| - 1] == 'n' && IGNORE[|IGNORE| - 1] == 'e';
    assert RECORD_SUFFIX[|RECORD_SUFFIX| - 1] == 'n';
  }

  /** A fresh uuid gives a fresh temporary name, whatever the other parts are. */
  lemma TempNamesKeepUuids(l1: string, p1: string, u1: string, l2: string, p2: string, u2: string)
    requires |u1| == |u2|
    requires TempName(l1, p1, u1) == TempName(l2, p2, u2)
    ensures u1 == u2
  {
    var a, b := "." + l1 + "." + p1 + ".", "." + l2 + "." + p2 + ".";
    assert TempName(l1, p1, u1) == a + (u1 + ".tmp");
    assert TempName(l2, p2, u2) == b + (u2 + ".tmp");
    CancelEqualTails(a, u1 + ".tmp", b, u2 + ".tmp");
    CancelSuffix(u1, u2, ".tmp");
  }
}

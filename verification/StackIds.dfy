/**
 The name of a stack as the workers read it out of the stack's id, which is written
 prefix:stack/name/uuid.  They do so in three ways, of which one finds the name.
 */
module StackIds {
  import opened Calls
  import opened Strings
  import opened StackNames

  /** split('/') */
  function Parts(s: string): seq<string>
    decreases |s|
  {
    if '/' in s then [Before(s, '/')] + Parts(Behind(s, '/')) else [s]
  }

  function IndexOf(parts: seq<string>, part: string): Option<nat> {
    if parts == [] then None
    else if parts[0] == part then Some(0)
    else match IndexOf(parts[1..], part)
         case None => None
         case Some(i) => Some(i + 1)
  }

  /** The part behind the one that reads `stack`: in the tenant worker and in the template tests. */
  function NameByParts(id: string): Option<string> {
    var at := IndexOf(Parts(id), "stack");
    if at.Some? && at.value + 1 < |Parts(id)| && Parts(id)[at.value + 1] != "" then Some(Parts(id)[at.value + 1]) else None
  }

  function Find(s: string, part: string): Option<nat> {
    if |s| < |part| then None
    else if s[..|part|] == part then Some(0)
    else if s == "" then None
    else match Find(s[1..], part)
         case None => None
         case Some(i) => Some(i + 1)
  }

  const MARKER := ":stack/"

  /** What stands behind the marker: in the orchestrator worker. */
  function NameByMarker(id: string): Option<string> {
    var trimmed := Trim(id);
    match Find(trimmed, MARKER)
    case None => None
    case Some(at) =>
      if at + |MARKER| <= |trimmed| then
        var name := Trim(Before(trimmed[at + |MARKER|..], '/'));
        if name == "" then None else Some(name)
      else None
  }

  ghost predicate IsAt(s: string, part: string, at: nat) {
    at + |part| <= |s| && s[at..at + |part|] == part
  }

  lemma {:induction false} FirstIsFound(s: string, part: string, at: nat)
    requires part != "" && IsAt(s, part, at) && forall i: nat :: i < at ==> !IsAt(s, part, i)
    ensures Find(s, part) == Some(at)
  {
    if at > 0 {
      assert !IsAt(s, part, 0);
      assert s[0..|part|] == s[..|part|];
      assert s[1..][at - 1..at - 1 + |part|] == s[at..at + |part|];
      forall i: nat | i < at - 1 ensures !IsAt(s[1..], part, i) {
        assert !IsAt(s, part, i + 1);
        if i + |part| <= |s[1..]| { assert s[1..][i..i + |part|] == s[i + 1..i + 1 + |part|]; }
      }
      FirstIsFound(s[1..], part, at - 1);
    } else {
      assert s[0..|part|] == s[..|part|];
    }
  }

  /** Without a slash in front of it the marker is found where it stands. */
  lemma MarkerIsFound(prefix: string, rest: string)
    requires '/' !in prefix
    ensures var s := prefix + (MARKER + rest); Find(s, MARKER) == Some(|prefix|) && s[|prefix| + |MARKER|..] == rest
  {
    var s := prefix + (MARKER + rest);
    assert s[|prefix|..|prefix| + |MARKER|] == MARKER;
    forall i: nat | i < |prefix| ensures !IsAt(s, MARKER, i) {
      var last := i + |MARKER| - 1;
      assert s[last] == if last < |prefix| then prefix[last] else MARKER[last - |prefix|];
      assert s[i..i + |MARKER|][|MARKER| - 1] == s[last] != '/';
    }
    FirstIsFound(s, MARKER, |prefix|);
  }

  lemma PartsOf(part: string, rest: string)
    requires '/' !in part
    ensures Parts(part + (['/'] + rest)) == [part] + Parts(rest) && Parts(part) == [part]
  {
    SplitAtSeparator(part, '/', rest);
    assert (part + (['/'] + rest))[|part|] == '/';
  }

  ghost predicate NoSpace(s: string) {
    forall ch <- s :: !IsSpace(ch)
  }

  lemma NothingTrimmed(s: string)
    requires NoSpace(s)
    ensures Trim(s) == s
  {
    if s != "" { assert s[0] in s && s[|s|-1] in s; }
    StripsNothing(s, IsSpace);
  }

  /** A whole stack id. */
  function WholeId(prefix: string, name: string, uuid: string): string {
    prefix + (MARKER + (name + (['/'] + uuid)))
  }

  /**
   Of a whole stack id the marker reads the name; the parts read nothing, unless the stack is called
   `stack`; and the last segment, as the deprovisioning takes it, is the uuid.
   */
  lemma WholeIdReads(prefix: string, name: string, uuid: string)
    requires '/' !in prefix && '/' !in name && '/' !in uuid && name != ""
    requires NoSpace(prefix) && NoSpace(name) && NoSpace(uuid)
    ensures NameByMarker(WholeId(prefix, name, uuid)) == Some(name)
    ensures NameByParts(WholeId(prefix, name, uuid)) == if name == "stack" && uuid != "" then Some(uuid) else None
    ensures LastSegment(WholeId(prefix, name, uuid)) == uuid
  {
    hide *;
    MarkerReads(prefix, name, uuid);
    PartsRead(prefix, name, uuid);
    SegmentReads(prefix, name, uuid);
  }

  lemma MarkerReads(prefix: string, name: string, uuid: string)
    requires '/' !in prefix && '/' !in name && name != "" && NoSpace(prefix) && NoSpace(name) && NoSpace(uuid)
    ensures NameByMarker(WholeId(prefix, name, uuid)) == Some(name)
  {
    hide Trim, Find, Before, IsSpace;
    var tail := name + (['/'] + uuid);
    var id := WholeId(prefix, name, uuid);
    WholeHasNoSpace(prefix, name, uuid);
    NothingTrimmed(id);
    NothingTrimmed(name);
    MarkerIsFound(prefix, tail);
    SplitAtSeparator(name, '/', uuid);
  }

  lemma WholeHasNoSpace(prefix: string, name: string, uuid: string)
    requires NoSpace(prefix) && NoSpace(name) && NoSpace(uuid)
    ensures NoSpace(WholeId(prefix, name, uuid))
  {
    assert forall ch <- MARKER :: !IsSpace(ch);
  }

  lemma PartsRead(prefix: string, name: string, uuid: string)
    requires '/' !in prefix && '/' !in name && '/' !in uuid
    ensures NameByParts(WholeId(prefix, name, uuid)) == if name == "stack" && uuid != "" then Some(uuid) else None
  {
    hide Parts, IndexOf;
    var tail := name + (['/'] + uuid);
    var first := prefix + ":stack";
    assert WholeId(prefix, name, uuid) == first + (['/'] + tail);
    PartsOf(first, tail);
    PartsOf(name, uuid);
    PartsOf(uuid, "");
    assert first != "stack" by { assert first[|prefix|] == ':'; }
    FirstOfThree(first, name, uuid);
    assert Parts(WholeId(prefix, name, uuid)) == [first, name, uuid];
  }

  lemma SegmentReads(prefix: string, name: string, uuid: string)
    requires '/' !in uuid
    ensures LastSegment(WholeId(prefix, name, uuid)) == uuid
  {
    var pre := prefix + (MARKER + (name + ['/']));
    SegmentBehindSlash(pre, uuid);
    assert WholeId(prefix, name, uuid) == pre + uuid;
  }

  lemma FirstOfThree(first: string, second: string, third: string)
    requires first != "stack"
    ensures IndexOf([first, second, third], "stack") == if second == "stack" then Some(1) else if third == "stack" then Some(2) else None
  {
    assert [first, second, third][1..] == [second, third];
    assert [second, third][1..] == [third];
    assert [third][1..] == [];
    assert IndexOf([], "stack") == None;
    assert IndexOf([third], "stack") == if third == "stack" then Some(0) else None;
  }
}

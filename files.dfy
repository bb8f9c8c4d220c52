/**
 * File-system naming shared by the scripts: `os.path.join` on POSIX paths and
 * the `%Y%m%d_%H%M%S` time stamp every saved file carries. The clock itself is
 * a parameter of each operation.
 */
module Files {
  import opened Text

  /** Python `os.path.join(dir, name)` on POSIX. */
  function PathJoin(dir: string, name: string): string {
    if name != [] && name[0] == '/' then name
    else if dir == [] || dir[|dir| - 1] == '/' then dir + name
    else dir + "/" + name
  }

  /** A relative name ends the joined path. */
  lemma PathJoinEndsWithName(dir: string, name: string)
    requires name != [] && name[0] != '/'
    ensures |PathJoin(dir, name)| >= |name|
    ensures PathJoin(dir, name)[|PathJoin(dir, name)| - |name|..] == name
  {
  }

  /** Within one directory, distinct relative names give distinct paths. */
  lemma PathJoinInjective(dir: string, a: string, b: string)
    requires a != [] && a[0] != '/' && b != [] && b[0] != '/'
    requires PathJoin(dir, a) == PathJoin(dir, b)
    ensures a == b
  {
    var pre := if dir == [] || dir[|dir| - 1] == '/' then dir else dir + "/";
    assert PathJoin(dir, a) == pre + a && PathJoin(dir, b) == pre + b;
    assert a == (pre + a)[|pre|..];
    assert b == (pre + b)[|pre|..];
  }

  /** A reading of `datetime.now()`: the `%Y%m%d` and `%H%M%S` halves. */
  datatype Clock = Clock(date: string, time: string)

  predicate WellFormedClock(c: Clock) {
    |c.date| == 8 && |c.time| == 6 && AllDigits(c.date) && AllDigits(c.time)
  }

  /** `now.strftime("%Y%m%d_%H%M%S")`. */
  function Stamp(c: Clock): string {
    c.date + "_" + c.time
  }
}

/**
 * Names of the uploaded objects. Each table task builds the prefix
 * `hostname/database/stamp` and the object is `prefix/table.sql.gz`, so
 * the components come in the order host, database, time stamp, table.
 * The host name and the stamp (the table task's own `time.Now()`
 * formatted as "2006-01-02-15", taken inside the table task) are inputs.
 */
module Keys {
  import opened Outcomes
  import opened Strings

  const Slash: char := '/'
  const DumpSuffix: string := ".sql.gz"

  /** The per-table prefix, `fmt.Sprintf("%s/%s/%s", hostname, database, stamp)`. */
  function BackupPath(host: string, database: string, stamp: string): string
  {
    host + [Slash] + database + [Slash] + stamp
  }

  /** The object name, `fmt.Sprintf("%s/%s.sql.gz", backupPath, table)`. */
  function ObjectName(backupPath: string, table: string): string
  {
    backupPath + [Slash] + table + DumpSuffix
  }

  function ObjectKey(host: string, database: string, stamp: string, table: string): string
  {
    ObjectName(BackupPath(host, database, stamp), table)
  }

  datatype KeyParts = KeyParts(host: string, database: string, stamp: string, table: string)

  /** Like Go's `strings.Cut`: the text before the first `c` and the text after it. */
  function Cut(s: string, c: char): (r: Option<(string, string)>)
    ensures r.None? <==> c !in s
    ensures r.Some? ==> s == r.value.0 + [c] + r.value.1 && c !in r.value.0
  {
    if s == [] then None
    else if s[0] == c then Some(([], s[1..]))
    else match Cut(s[1..], c)
      case None => None
      case Some((before, after)) => Some(([s[0]] + before, after))
  }

  function TrimDumpSuffix(s: string): (r: Option<string>)
    ensures r.Some? ==> s == r.value + DumpSuffix
  {
    if |s| >= |DumpSuffix| && s[|s| - |DumpSuffix|..] == DumpSuffix
    then Some(s[..|s| - |DumpSuffix|])
    else None
  }

  /** Reads a key back into its four components: the first three are cut
      at the first three slashes; the rest, less ".sql.gz", is the table. */
  function ParseKey(key: string): (r: Option<KeyParts>)
  {
    match Cut(key, Slash)
    case None => None
    case Some((host, rest1)) =>
      match Cut(rest1, Slash)
      case None => None
      case Some((database, rest2)) =>
        match Cut(rest2, Slash)
        case None => None
        case Some((stamp, rest3)) =>
          match TrimDumpSuffix(rest3)
          case None => None
          case Some(table) => Some(KeyParts(host, database, stamp, table))
  }

  lemma {:induction false} CutFirst(a: string, b: string, c: char)
    requires c !in a
    ensures Cut(a + [c] + b, c) == Some((a, b))
    decreases |a|
  {
    var s := a + [c] + b;
    if a == [] {
      assert s[1..] == b;
    } else {
      assert s[1..] == a[1..] + [c] + b;
      CutFirst(a[1..], b, c);
      assert [a[0]] + a[1..] == a;
    }
  }

  /** A key whose host, database and stamp hold no slash parses back into
      the same four components. The table may contain anything. */
  lemma ParseObjectKey(host: string, database: string, stamp: string, table: string)
    requires Slash !in host && Slash !in database && Slash !in stamp
    ensures ParseKey(ObjectKey(host, database, stamp, table)) == Some(KeyParts(host, database, stamp, table))
  {
    var rest3 := table + DumpSuffix;
    var rest2 := stamp + [Slash] + rest3;
    var rest1 := database + [Slash] + rest2;
    assert ObjectKey(host, database, stamp, table) == host + [Slash] + rest1;
    CutFirst(host, rest1, Slash);
    CutFirst(database, rest2, Slash);
    CutFirst(stamp, rest3, Slash);
    assert rest3[|rest3| - |DumpSuffix|..] == DumpSuffix;
    assert rest3[..|rest3| - |DumpSuffix|] == table;
  }

  /** Every key that parses is the key of the components it parses into. */
  lemma ParseKeySound(key: string)
    requires ParseKey(key).Some?
    ensures var p := ParseKey(key).value;
      && Slash !in p.host && Slash !in p.database && Slash !in p.stamp
      && ObjectKey(p.host, p.database, p.stamp, p.table) == key
  {
    var Some((host, rest1)) := Cut(key, Slash);
    var Some((database, rest2)) := Cut(rest1, Slash);
    var Some((stamp, rest3)) := Cut(rest2, Slash);
    var Some(table) := TrimDumpSuffix(rest3);
    assert ParseKey(key).value == KeyParts(host, database, stamp, table);
    var tail3 := table + DumpSuffix;
    var tail2 := stamp + [Slash] + tail3;
    var tail1 := database + [Slash] + tail2;
    assert key == host + [Slash] + tail1;
    var path := BackupPath(host, database, stamp);
    assert path + [Slash] + tail3 == host + [Slash] + tail1 by {
      ConcatAssoc3(host + [Slash] + database + [Slash], stamp, [Slash], tail3);
      ConcatAssoc3(host + [Slash], database, [Slash], tail2);
    }
  }

  /** Under the same condition, distinct components give distinct keys; in
      particular two tables of one database, or two databases, never share
      an object when host and stamp are the same. */
  lemma ObjectKeyInjective(h1: string, d1: string, s1: string, t1: string,
                           h2: string, d2: string, s2: string, t2: string)
    requires Slash !in h1 && Slash !in d1 && Slash !in s1
    requires Slash !in h2 && Slash !in d2 && Slash !in s2
    requires ObjectKey(h1, d1, s1, t1) == ObjectKey(h2, d2, s2, t2)
    ensures h1 == h2 && d1 == d2 && s1 == s2 && t1 == t2
  {
    ParseObjectKey(h1, d1, s1, t1);
    ParseObjectKey(h2, d2, s2, t2);
  }

  /** Slashes in a database name break the decomposition: the key for
      database "a/b", table "t" is also the key for database "a", stamp
      "b", table "<stamp>/t". */
  lemma SlashInDatabaseCollides(host: string, stamp: string)
    ensures ObjectKey(host, "a/b", stamp, "t") == ObjectKey(host, "a", "b", stamp + "/t")
  {
  }
}

/** The Redis data the work queue uses, and the commands it issues.

    A list is written head first, so RPOPLPUSH takes the last element of `main`
    and puts it in front of `processing`. Each function below is one command,
    and a command is atomic. */
module Redis {
  import opened Collections

  type Item = string
  type Session = nat

  /** A lease key holds the session that set it and the time it expires. */
  datatype Lease = Lease(session: Session, expires: nat)

  datatype Db = Db(main: seq<Item>, processing: seq<Item>, leases: map<string, Lease>, clock: nat)

  /** RPOPLPUSH, and BRPOPLPUSH once it returns: nil when the main list is empty. */
  function RPopLPush(db: Db): (Option<Item>, Db) {
    if db.main == [] then (None, db)
    else (Some(Last(db.main)),
          db.(main := DropLast(db.main), processing := [Last(db.main)] + db.processing))
  }

  /** SETEX key seconds session */
  function SetEx(db: Db, key: string, seconds: nat, session: Session): Db {
    db.(leases := db.leases[key := Lease(session, db.clock + seconds)])
  }

  /** LREM processing 0 value: count 0 removes every occurrence. */
  function LRem(db: Db, value: Item): Db {
    db.(processing := Without(db.processing, value))
  }

  /** DEL key */
  function Del(db: Db, key: string): Db {
    db.(leases := db.leases - {key})
  }

  /** The server reclaims a key whose time has come. */
  function Reclaim(db: Db, key: string): Db {
    if key in db.leases && db.leases[key].expires <= db.clock then Del(db, key) else db
  }

  /** EXISTS key: a key whose time has come is not seen, reclaimed or not. */
  predicate Visible(db: Db, key: string) {
    key in db.leases && db.clock < db.leases[key].expires
  }

  function Without(s: seq<Item>, value: Item): seq<Item> {
    if s == [] then []
    else if s[0] == value then Without(s[1..], value)
    else [s[0]] + Without(s[1..], value)
  }

  lemma {:induction false} WithoutMultiset(s: seq<Item>, value: Item)
    ensures multiset(Without(s, value)) == multiset(s)[value := 0]
  {
    if s != [] {
      WithoutMultiset(s[1..], value);
      assert s == [s[0]] + s[1..];
    }
  }
}

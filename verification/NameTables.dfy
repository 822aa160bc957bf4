/** The five tables of names, and the reading of the file that fills them. The first
    name given to a key stays. */
module NameTables {
  import opened Bags
  import opened Bytes
  import opened Names

  type U8 = x: int | 0 <= x < 0x100

  // ------------------------------------------------------------ one table

  /** A bucket: the newest entry first. Entries never change once linked. */
  datatype Chain<K> = End | Link(key: K, name: string, next: Chain<K>)

  type Table<K> = seq<Chain<K>>

  function Find<K(==)>(c: Chain<K>, key: K): Option<string> {
    match c
    case End => None
    case Link(k, name, next) => if k == key then Some(name) else Find(next, key)
  }

  function Bucket(number: U32): (h: nat)
    ensures h < HASH_SIZE
  {
    var r := Remainder(number as bv32);
    r as int
  }

  /** A table stands for a map: a key is looked for in the bucket of its own number. */
  ghost predicate Refines<K(!new)>(t: Table<K>, number: K -> U32, m: map<K, string>) {
    && |t| == HASH_SIZE
    && forall k: K :: Find(t[Bucket(number(k))], k) == Entry(m, k)
  }

  function Entry<K>(m: map<K, string>, key: K): Option<string> {
    if key in m then Some(m[key]) else None
  }

  /** What inserting does to the map: nothing to a key that has a name. */
  function FirstName<K>(m: map<K, string>, key: K, name: string): map<K, string> {
    if key in m then m else m[key := name]
  }

  /** The walk along a bucket that all the names_ and new_ functions share. */
  method Walk<K(==)>(c: Chain<K>, key: K) returns (r: Option<string>)
    ensures r == Find(c, key)
  {
    var v := c;
    while v != End
      invariant Find(v, key) == Find(c, key)
      decreases v
    {
      if v.key == key {
        return Some(v.name);
      }
      v := v.next;
    }
    return None;
  }

  /** A new_ function: refuses a key that has a name, and else puts the entry in front
      of its bucket. */
  method Add<K(==, !new)>(t: Table<K>, number: K -> U32, name: string, key: K, ghost m: map<K, string>)
    returns (u: Table<K>, code: int)
    requires Refines(t, number, m)
    ensures Refines(u, number, FirstName(m, key, name))
    ensures code == if key in m then -1 else 0
    ensures code == -1 ==> u == t
  {
    hide Bucket;
    var h := HashOf(number(key));
    var found := Walk(t[h], key);
    if found.Some? {
      return t, -1;
    }
    LinkedRefines(t, number, name, key, m);
    return t[h := Link(key, name, t[h])], 0;
  }

  lemma LinkedRefines<K(!new)>(t: Table<K>, number: K -> U32, name: string, key: K, m: map<K, string>)
    requires Refines(t, number, m) && key !in m
    ensures var h := Bucket(number(key)); Refines(t[h := Link(key, name, t[h])], number, m[key := name])
  {
    hide Bucket;
    var h := Bucket(number(key));
    var u, n := t[h := Link(key, name, t[h])], m[key := name];
    forall k: K ensures Find(u[Bucket(number(k))], k) == Entry(n, k) {
      assert Find(t[Bucket(number(k))], k) == Entry(m, k);
    }
  }

  /** The index of a number's bucket. */
  method HashOf(number: U32) returns (h: nat)
    ensures h == Bucket(number)
  {
    var r := HashNum(number as bv32);
    h := r as int;
  }

  /** A names_ function. */
  method LookUp<K(==, !new)>(t: Table<K>, number: K -> U32, key: K, ghost m: map<K, string>) returns (r: Option<string>)
    requires Refines(t, number, m)
    ensures r == if key in m then Some(m[key]) else None
  {
    hide Bucket;
    var h := HashOf(number(key));
    r := Walk(t[h], key);
  }

  function Empty<K>(): (t: Table<K>)
    ensures |t| == HASH_SIZE
  {
    seq(HASH_SIZE, _ => End)
  }

  // ------------------------------------------------------------ the five keys

  type ProductKey = (U16, U16)
  type SubclassKey = (U8, U8)
  type ProtocolKey = (U8, U8, U8)

  function VendorNumber(v: U16): U32 { v }
  function ProductNumber(k: ProductKey): U32 {
    var v: int, p: int := k.0, k.1;
    v * 0x1_0000 + p
  }
  function ClassNumber(c: U8): U32 { c }
  function SubclassNumber(k: SubclassKey): U32 {
    var c: int, s: int := k.0, k.1;
    c * 0x100 + s
  }
  function ProtocolNumber(k: ProtocolKey): U32 {
    var c: int, s: int, p: int := k.0, k.1, k.2;
    c * 0x1_0000 + s * 0x100 + p
  }

  /** The parts of a key stand side by side in the number that is hashed, so no two keys of
      a table share a number. */
  lemma NumbersApart(p: ProductKey, p1: ProductKey, s: SubclassKey, s1: SubclassKey, c: ProtocolKey, c1: ProtocolKey)
    ensures ProductNumber(p) / 0x1_0000 == p.0 && ProductNumber(p) % 0x1_0000 == p.1
    ensures SubclassNumber(s) / 0x100 == s.0 && SubclassNumber(s) % 0x100 == s.1
    ensures var n := ProtocolNumber(c); n / 0x1_0000 == c.0 && n / 0x100 % 0x100 == c.1 && n % 0x100 == c.2
    ensures p != p1 ==> ProductNumber(p) != ProductNumber(p1)
    ensures s != s1 ==> SubclassNumber(s) != SubclassNumber(s1)
    ensures c != c1 ==> ProtocolNumber(c) != ProtocolNumber(c1)
  {
    ProtocolParts(c);
    ProtocolParts(c1);
  }

  lemma ProtocolParts(c: ProtocolKey)
    ensures var n := ProtocolNumber(c); n / 0x1_0000 == c.0 && n / 0x100 % 0x100 == c.1 && n % 0x100 == c.2
  {
    var n, high: int, low: int := ProtocolNumber(c), c.0, c.1;
    assert n == (high * 0x100 + low) * 0x100 + c.2;
    assert n / 0x100 == high * 0x100 + low;
  }

  /** Whose name it is. */
  datatype Key =
    | Vendor(vendor: U16)
    | Product(product: ProductKey)
    | Class(class_: U8)
    | Subclass(subclass: SubclassKey)
    | Protocol(protocol: ProtocolKey)

  datatype Naming = Naming(key: Key, name: string)

  /** The five maps the tables stand for. */
  datatype Database = Database(vendors: map<U16, string>, products: map<ProductKey, string>, classes: map<U8, string>,
                               subclasses: map<SubclassKey, string>, protocols: map<ProtocolKey, string>)

  const NO_NAMES := Database(map[], map[], map[], map[], map[])

  function Named(d: Database, key: Key): Option<string> {
    match key
    case Vendor(k) => Entry(d.vendors, k)
    case Product(k) => Entry(d.products, k)
    case Class(k) => Entry(d.classes, k)
    case Subclass(k) => Entry(d.subclasses, k)
    case Protocol(k) => Entry(d.protocols, k)
  }

  function File(d: Database, n: Naming): Database {
    match n.key
    case Vendor(k) => d.(vendors := FirstName(d.vendors, k, n.name))
    case Product(k) => d.(products := FirstName(d.products, k, n.name))
    case Class(k) => d.(classes := FirstName(d.classes, k, n.name))
    case Subclass(k) => d.(subclasses := FirstName(d.subclasses, k, n.name))
    case Protocol(k) => d.(protocols := FirstName(d.protocols, k, n.name))
  }

  function FileAll(d: Database, ns: seq<Naming>): Database
    decreases |ns|
  {
    if ns == [] then d else FileAll(File(d, ns[0]), ns[1..])
  }

  /** The first name given to a key. */
  function FirstFor(ns: seq<Naming>, key: Key): Option<string> {
    if ns == [] then None
    else if ns[0].key == key then Some(ns[0].name)
    else FirstFor(ns[1..], key)
  }

  /** After any insertions, in any of the five tables, a key has the name it had, or
      else the first it was given. */
  lemma {:induction false} FirstNameStays(d: Database, ns: seq<Naming>, key: Key)
    ensures Named(FileAll(d, ns), key) == if Named(d, key).Some? then Named(d, key) else FirstFor(ns, key)
    decreases |ns|
  {
    if ns != [] {
      FiledOnce(d, ns[0], key);
      FirstNameStays(File(d, ns[0]), ns[1..], key);
    }
  }

  lemma FiledOnce(d: Database, n: Naming, key: Key)
    ensures Named(File(d, n), key) ==
      if Named(d, key).Some? then Named(d, key) else if n.key == key then Some(n.name) else None
  {
  }

  /** The tables as the source keeps them. */
  class NameDatabase {
    var vendors: Table<U16>
    var products: Table<ProductKey>
    var classes: Table<U8>
    var subclasses: Table<SubclassKey>
    var protocols: Table<ProtocolKey>
    ghost var names: Database

    ghost predicate Valid()
      reads this
    {
      && Refines(vendors, VendorNumber, names.vendors)
      && Refines(products, ProductNumber, names.products)
      && Refines(classes, ClassNumber, names.classes)
      && Refines(subclasses, SubclassNumber, names.subclasses)
      && Refines(protocols, ProtocolNumber, names.protocols)
    }

    constructor ()
      ensures Valid() && names == NO_NAMES
    {
      vendors, products, classes, subclasses, protocols := Empty(), Empty(), Empty(), Empty(), Empty();
      names := NO_NAMES;
    }

    /** The five new_ functions. */
    method NewName(n: Naming) returns (code: int)
      requires Valid()
      modifies this
      ensures Valid() && names == File(old(names), n)
      ensures code == if Named(old(names), n.key).Some? then -1 else 0
    {
      hide Refines, FirstName;
      match n.key
      case Vendor(k) =>
        vendors, code := Add(vendors, VendorNumber, n.name, k, names.vendors);
        names := names.(vendors := FirstName(names.vendors, k, n.name));
      case Product(k) =>
        products, code := Add(products, ProductNumber, n.name, k, names.products);
        names := names.(products := FirstName(names.products, k, n.name));
      case Class(k) =>
        classes, code := Add(classes, ClassNumber, n.name, k, names.classes);
        names := names.(classes := FirstName(names.classes, k, n.name));
      case Subclass(k) =>
        subclasses, code := Add(subclasses, SubclassNumber, n.name, k, names.subclasses);
        names := names.(subclasses := FirstName(names.subclasses, k, n.name));
      case Protocol(k) =>
        protocols, code := Add(protocols, ProtocolNumber, n.name, k, names.protocols);
        names := names.(protocols := FirstName(names.protocols, k, n.name));
    }

    /** The five names_ functions. */
    method NameOf(key: Key) returns (r: Option<string>)
      requires Valid()
      ensures r == Named(names, key)
    {
      hide Refines;
      match key
      case Vendor(k) => r := LookUp(vendors, VendorNumber, k, names.vendors);
      case Product(k) => r := LookUp(products, ProductNumber, k, names.products);
      case Class(k) => r := LookUp(classes, ClassNumber, k, names.classes);
      case Subclass(k) => r := LookUp(subclasses, SubclassNumber, k, names.subclasses);
      case Protocol(k) => r := LookUp(protocols, ProtocolNumber, k, names.protocols);
    }
  }
}

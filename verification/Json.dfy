/**
 * The retention skeleton: what is left of a stored webhook payload once its window has
 * passed. The transform runs inside the database, on jsonb values.
 */
module Json {
  datatype Json =
    | Null
    | Bool(b: bool)
    | Num(n: int)
    | Str(s: string)
    | Arr(items: seq<Json>)
    | Obj(members: map<string, Json>)

  /** payload -> key: absent members read as SQL NULL, which jsonb_build_object writes as null. */
  function Member(j: Json, key: string): Json {
    if j.Obj? && key in j.members then j.members[key] else Null
  }

  /** jsonb_strip_nulls: drops null members of every nested object, keeps null array items. */
  function StripNulls(j: Json): Json {
    match j
    case Obj(m) => Obj(map k | k in m && m[k] != Null :: StripNulls(m[k]))
    case Arr(s) => Arr(seq(|s|, i requires 0 <= i < |s| => StripNulls(s[i])))
    case _ => j
  }

  const ENVELOPE_KEYS: set<string> := {"id", "object", "type", "created", "livemode", "api_version"}
  const OBJECT_KEYS: set<string> := {"id", "object"}

  /** The keys processed_webhooks_purged_payload_chk forbids under data.object. */
  const PERSONAL_KEYS: set<string> := {"customer_details", "billing_details", "customer_email"}

  function DataObject(payload: Json): Json {
    Member(Member(payload, "data"), "object")
  }

  /** data.object of the skeleton. */
  function SkeletonObject(payload: Json): Json {
    StripNulls(Obj(map k | k in OBJECT_KEYS :: Member(DataObject(payload), k)))
  }

  function Envelope(payload: Json): map<string, Json> {
    (map k | k in ENVELOPE_KEYS :: Member(payload, k))
    ["data" := Obj(map["object" := SkeletonObject(payload)])]
  }

  function Skeleton(payload: Json): Json {
    StripNulls(Obj(Envelope(payload)))
  }

  /** The CHECK on purged rows. */
  predicate PurgeCheck(payload: Json) {
    var data := Member(payload, "data");
    !(data.Obj? && DataObject(payload).Obj? && DataObject(payload).members.Keys * PERSONAL_KEYS != {})
  }

  // ------------------------------------------------------------ properties

  lemma {:induction false} StripNullsIdempotent(j: Json)
    ensures StripNulls(StripNulls(j)) == StripNulls(j)
    ensures StripNulls(j) == Null <==> j == Null
  {
    match j
    case Obj(m) =>
      forall k | k in m && m[k] != Null
        ensures StripNulls(StripNulls(m[k])) == StripNulls(m[k]) && StripNulls(m[k]) != Null
      {
        StripNullsIdempotent(m[k]);
      }
    case Arr(s) =>
      forall i | 0 <= i < |s|
        ensures StripNulls(StripNulls(s[i])) == StripNulls(s[i])
      {
        StripNullsIdempotent(s[i]);
      }
    case _ =>
  }

  /** No object anywhere in the value has a null member; null array items are left alone. */
  predicate NullFree(j: Json) {
    match j
    case Obj(m) => forall k :: k in m ==> m[k] != Null && NullFree(m[k])
    case Arr(s) => forall i :: 0 <= i < |s| ==> NullFree(s[i])
    case _ => true
  }

  /** Stripping leaves no null member at any depth, and nothing else to strip. */
  lemma {:induction false} StrippedIsNullFree(j: Json)
    ensures NullFree(StripNulls(j)) && (NullFree(j) ==> StripNulls(j) == j)
  {
    match j
    case Obj(m) =>
      forall k | k in m && m[k] != Null
        ensures StripNulls(m[k]) != Null && NullFree(StripNulls(m[k])) && (NullFree(m[k]) ==> StripNulls(m[k]) == m[k])
      {
        StripNullsIdempotent(m[k]);
        StrippedIsNullFree(m[k]);
      }
    case Arr(s) =>
      forall i | 0 <= i < |s|
        ensures NullFree(StripNulls(s[i])) && (NullFree(s[i]) ==> StripNulls(s[i]) == s[i])
      {
        StrippedIsNullFree(s[i]);
      }
      if NullFree(j) {
        assert StripNulls(j).items == s;
      }
    case _ =>
  }

  /** A stripped object, member by member. */
  lemma StrippedMembers(m: map<string, Json>)
    ensures StripNulls(Obj(m)).members.Keys <= m.Keys
    ensures forall k :: k in StripNulls(Obj(m)).members ==> StripNulls(Obj(m)).members[k] != Null
    ensures forall k :: Member(StripNulls(Obj(m)), k) == StripNulls(Member(Obj(m), k))
  {
    forall k | k in m
      ensures StripNulls(m[k]) == Null <==> m[k] == Null
    {
      StripNullsIdempotent(m[k]);
    }
  }

  lemma SkeletonObjectMembers(payload: Json)
    ensures SkeletonObject(payload).Obj?
    ensures SkeletonObject(payload).members.Keys <= OBJECT_KEYS
    ensures forall k :: k in SkeletonObject(payload).members ==> SkeletonObject(payload).members[k] != Null
    ensures forall k :: k in OBJECT_KEYS ==>
      Member(SkeletonObject(payload), k) == StripNulls(Member(DataObject(payload), k))
  {
    var raw := map k | k in OBJECT_KEYS :: Member(DataObject(payload), k);
    StrippedMembers(raw);
    forall k | k in OBJECT_KEYS
      ensures Member(SkeletonObject(payload), k) == StripNulls(Member(DataObject(payload), k))
    {
      assert Member(Obj(raw), k) == Member(DataObject(payload), k);
    }
  }

  lemma SkeletonDataIsStripped(payload: Json)
    ensures StripNulls(Obj(map["object" := SkeletonObject(payload)])) == Obj(map["object" := SkeletonObject(payload)])
  {
    StripNullsIdempotent(Obj(map k | k in OBJECT_KEYS :: Member(DataObject(payload), k)));
  }

  /** What every member of a skeleton is, in terms of the payload it came from. */
  lemma SkeletonMembers(payload: Json)
    ensures Skeleton(payload).Obj?
    ensures Member(Skeleton(payload), "data") == Obj(map["object" := SkeletonObject(payload)])
    ensures DataObject(Skeleton(payload)) == SkeletonObject(payload)
    ensures forall k :: k in ENVELOPE_KEYS ==>
      Member(Skeleton(payload), k) == StripNulls(Member(payload, k))
    ensures Skeleton(payload).members.Keys <= ENVELOPE_KEYS + {"data"}
    ensures forall k :: k in Skeleton(payload).members ==> Skeleton(payload).members[k] != Null
  {
    EnvelopeMembers(payload);
    StrippedMembers(Envelope(payload));
    SkeletonDataIsStripped(payload);
  }

  lemma EnvelopeMembers(payload: Json)
    ensures Envelope(payload).Keys == ENVELOPE_KEYS + {"data"}
    ensures Member(Obj(Envelope(payload)), "data") == Obj(map["object" := SkeletonObject(payload)])
    ensures forall k :: k in ENVELOPE_KEYS ==> Member(Obj(Envelope(payload)), k) == Member(payload, k)
  {
    assert "data" !in ENVELOPE_KEYS;
  }

  lemma SkeletonObjectIdempotent(payload: Json)
    ensures SkeletonObject(Skeleton(payload)) == SkeletonObject(payload)
  {
    var first, second := SkeletonObject(payload), SkeletonObject(Skeleton(payload));
    SkeletonMembers(payload);
    SkeletonObjectMembers(payload);
    SkeletonObjectMembers(Skeleton(payload));
    forall k | k in OBJECT_KEYS
      ensures Member(first, k) == Member(second, k)
    {
      StripNullsIdempotent(Member(DataObject(payload), k));
    }
    SameMembers(first, second, OBJECT_KEYS);
  }

  /** Purging twice is purging once. */
  lemma SkeletonIdempotent(payload: Json)
    ensures Skeleton(Skeleton(payload)) == Skeleton(payload)
  {
    var once, twice := Skeleton(payload), Skeleton(Skeleton(payload));
    SkeletonMembers(payload);
    SkeletonMembers(once);
    SkeletonObjectIdempotent(payload);
    var keys := ENVELOPE_KEYS + {"data"};
    forall k | k in keys
      ensures Member(once, k) == Member(twice, k)
    {
      if k in ENVELOPE_KEYS {
        StripNullsIdempotent(Member(payload, k));
      }
    }
    SameMembers(once, twice, keys);
  }

  /** Two null-free objects over the same keys are equal if they agree member by member. */
  lemma SameMembers(a: Json, b: Json, keys: set<string>)
    requires a.Obj? && b.Obj? && a.members.Keys <= keys && b.members.Keys <= keys
    requires forall k :: k in a.members ==> a.members[k] != Null
    requires forall k :: k in b.members ==> b.members[k] != Null
    requires forall k :: k in keys ==> Member(a, k) == Member(b, k)
    ensures a == b
  {
    forall k ensures k in a.members <==> k in b.members
    {
      if k in keys { assert Member(a, k) == Member(b, k); }
    }
    forall k | k in a.members ensures a.members[k] == b.members[k]
    {
      assert Member(a, k) == Member(b, k);
    }
    assert a.members == b.members;
  }

  // ------------------------------------------------------------- allowlist

  /** The value a path of member names leads to; a path through a non-object reads as null. */
  function At(j: Json, path: seq<string>): Json
    decreases |path|
  {
    if path == [] then j else At(Member(j, path[0]), path[1..])
  }

  /** The eight paths that may survive, by name, and what lies below them. */
  predicate AllowListed(path: seq<string>) {
    || (|path| >= 1 && (|| path[0] == "id" || path[0] == "object" || path[0] == "type"
                        || path[0] == "created" || path[0] == "livemode" || path[0] == "api_version"))
    || (|path| >= 3 && path[0] == "data" && path[1] == "object" && (path[2] == "id" || path[2] == "object"))
  }

  /** The keys the transform is written with are those eight and no others. */
  lemma KeysAreTheAllowList(key: string)
    ensures key in ENVELOPE_KEYS <==> (|| key == "id" || key == "object" || key == "type"
                                       || key == "created" || key == "livemode" || key == "api_version")
    ensures key in OBJECT_KEYS <==> key == "id" || key == "object"
  {}

  predicate Structural(path: seq<string>) {
    path == [] || path == ["data"] || path == ["data", "object"]
  }

  lemma {:induction false} AtNull(path: seq<string>)
    ensures At(Null, path) == Null
    decreases |path|
  {
    if path != [] { AtNull(path[1..]); }
  }

  lemma {:induction false} AtStripped(j: Json, path: seq<string>)
    ensures At(StripNulls(j), path) == StripNulls(At(j, path))
    decreases |path|
  {
    if path != [] {
      if j.Obj? && path[0] in j.members && j.members[path[0]] == Null {
        AtNull(path[1..]);
      }
      assert Member(StripNulls(j), path[0]) == StripNulls(Member(j, path[0]));
      AtStripped(Member(j, path[0]), path[1..]);
    }
  }

  /**
   * The skeleton is exactly the allowlist. At every path it holds what the payload held, nulls
   * stripped, if the path is one of the eight or below one, and nothing otherwise; only the three nodes the
   * allow-listed paths hang from are always there, as objects with no other members.
   */
  lemma SkeletonKeepsAllowList(payload: Json, path: seq<string>)
    ensures !Structural(path) ==>
              At(Skeleton(payload), path) == if AllowListed(path) then StripNulls(At(payload, path)) else Null
    ensures Structural(path) ==> At(Skeleton(payload), path).Obj?
  {
    if Structural(path) {
      StructuralNodes(payload);
    } else {
      AllowListOnly(payload, path);
    }
  }

  lemma StructuralNodes(payload: Json)
    ensures var sk := Skeleton(payload);
            At(sk, []).Obj? && At(sk, ["data"]).Obj? && At(sk, ["data", "object"]).Obj?
  {
    SkeletonMembers(payload);
    SkeletonObjectMembers(payload);
    var sk := Skeleton(payload);
    assert ["data"][1..] == [] && ["data", "object"][1..] == ["object"] && ["object"][1..] == [];
    assert At(sk, ["data"]) == Member(sk, "data");
    assert At(sk, ["data", "object"]) == At(Member(sk, "data"), ["object"]) == DataObject(sk);
  }

  lemma AllowListOnly(payload: Json, path: seq<string>)
    requires !Structural(path)
    ensures At(Skeleton(payload), path) ==
            if AllowListed(path) then StripNulls(At(payload, path)) else Null
  {
    SkeletonMembers(payload);
    var sk := Skeleton(payload);
    KeysAreTheAllowList(path[0]);
    if |path| >= 3 { KeysAreTheAllowList(path[2]); }
    if path[0] in ENVELOPE_KEYS {
      AtStripped(Member(payload, path[0]), path[1..]);
    } else if path[0] != "data" {
      assert Member(sk, path[0]) == Null;
      AtNull(path[1..]);
    } else {
      var rest := path[1..];
      assert path == [path[0]] + rest;
      assert rest != [];
      if rest[0] != "object" {
        assert Member(Member(sk, "data"), rest[0]) == Null;
        AtNull(rest[1..]);
      } else {
        var last := rest[1..];
        assert path == ["data", "object"] + last;
        assert last != [];
        assert At(sk, path) == At(DataObject(sk), last);
        assert At(payload, path) == At(DataObject(payload), last);
        UnderDataObject(payload, last);
      }
    }
  }

  lemma UnderDataObject(payload: Json, last: seq<string>)
    requires last != []
    ensures At(SkeletonObject(payload), last) ==
            if last[0] in OBJECT_KEYS then StripNulls(At(DataObject(payload), last)) else Null
  {
    SkeletonObjectMembers(payload);
    if last[0] in OBJECT_KEYS {
      AtStripped(Member(DataObject(payload), last[0]), last[1..]);
    } else {
      assert Member(SkeletonObject(payload), last[0]) == Null;
      AtNull(last[1..]);
    }
  }

  /** The CHECK refuses exactly an object that still has one of the three personal members. */
  lemma PurgeCheckRefusesIff(payload: Json)
    ensures !PurgeCheck(payload) <==>
            && Member(payload, "data").Obj? && DataObject(payload).Obj?
            && (|| "customer_details" in DataObject(payload).members
                || "billing_details" in DataObject(payload).members
                || "customer_email" in DataObject(payload).members)
  {
    if DataObject(payload).Obj? {
      var keys := DataObject(payload).members.Keys;
      assert forall k :: k in keys * PERSONAL_KEYS <==>
               k in keys && (k == "customer_details" || k == "billing_details" || k == "customer_email");
    }
  }

  /** A purged payload always passes the CHECK that guards the column. */
  lemma SkeletonPassesPurgeCheck(payload: Json)
    ensures PurgeCheck(Skeleton(payload))
  {
    SkeletonMembers(payload);
    SkeletonObjectMembers(payload);
    assert OBJECT_KEYS * PERSONAL_KEYS == {};
  }
}

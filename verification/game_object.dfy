/** Game objects: id allocation from a counter threaded through
    construction, the type-driven appearance table, the copy constructor,
    the type accessors, and the self-excluding candidate list handed to the
    collision manager. */
module GameObjects {
  import opened Vectors
  import opened Optional
  import opened Colliders

  /** Shader material constants of an object. */
  datatype LightingInfo = LightingInfo(materialShine: real, materialKd: real, materialKs: real)

  /** What the constructor derives from the type string. `None` marks a
      member it leaves unassigned (a null mesh or shader, a vector
      never written). Meshes and shaders are named by their registry key. */
  datatype Appearance = Appearance(
    scale: Option<Vec3>,
    mesh: Option<string>,
    shader: Option<string>,
    lighting: Option<LightingInfo>,
    color: Option<Vec3>)

  /** A game object. `collider` is the object's collider member, which the
      constructor in GameObject.cpp does not assign. */
  datatype GameObject = GameObject(
    id: int,
    position: Vec3,
    objType: string,
    look: Appearance,
    collider: Collider)

  const PlatformPrefix: string := "platform_"
  const Purple: string := "platform_purple"

  /** `type.rfind("platform_", 0) == 0`: the type starts with the platform prefix. */
  predicate IsPlatformType(t: string)
  {
    PlatformPrefix <= t
  }

  /** `type.substr(type.find("_") + 1)` on a platform type: the prefix holds
      no other underscore, so the first one ends the prefix. */
  function PlatformColour(t: string): string
    requires IsPlatformType(t)
  {
    t[|PlatformPrefix|..]
  }

  /** Colour of each platform suffix; a suffix without a branch leaves the colour unset. */
  function SuffixColour(colour: string): Option<Vec3>
  {
    if colour == "red" then Some(Vec3(1.0, 0.0, 0.0))
    else if colour == "yellow" then Some(Vec3(1.0, 1.0, 0.0))
    else if colour == "orange" then Some(Vec3(0.9, 0.6, 0.2))
    else if colour == "green" then Some(Vec3(0.0, 1.0, 0.0))
    else if colour == "purple" then Some(Vec3(0.5, 0.1, 0.4))
    else None
  }

  /** The constructor's type table. */
  function AppearanceOf(t: string): Appearance
  {
    if t == "ball" then
      Appearance(Some(One3), Some("sphere"), Some("Base"), Some(LightingInfo(5.0, 0.5, 0.25)), Some(One3))
    else if IsPlatformType(t) then
      Appearance(Some(Vec3(1.0, 0.25, 20.0)), Some("box"), Some("Base"),
                 Some(LightingInfo(0.1, 0.99, 0.001)), SuffixColour(PlatformColour(t)))
    else
      Appearance(None, None, None, None, None)
  }

  /** The type table, row by row. */
  lemma AppearanceTable(t: string)
    ensures AppearanceOf("ball").scale == Some(Vec3(1.0, 1.0, 1.0))
    ensures AppearanceOf("ball").color == Some(Vec3(1.0, 1.0, 1.0))
    ensures AppearanceOf("ball").mesh == Some("sphere")
    ensures IsPlatformType(t) ==> AppearanceOf(t).scale == Some(Vec3(1.0, 0.25, 20.0))
    ensures IsPlatformType(t) ==> AppearanceOf(t).mesh == Some("box")
    ensures AppearanceOf("platform_red").color == Some(Vec3(1.0, 0.0, 0.0))
    ensures AppearanceOf("platform_yellow").color == Some(Vec3(1.0, 1.0, 0.0))
    ensures AppearanceOf("platform_orange").color == Some(Vec3(0.9, 0.6, 0.2))
    ensures AppearanceOf("platform_green").color == Some(Vec3(0.0, 1.0, 0.0))
    ensures AppearanceOf("platform_purple").color == Some(Vec3(0.5, 0.1, 0.4))
    ensures AppearanceOf("platform_white").color == None
    ensures AppearanceOf("platform_white").scale == Some(Vec3(1.0, 0.25, 20.0))
    ensures t != "ball" && !IsPlatformType(t) ==> AppearanceOf(t).mesh == None && AppearanceOf(t).shader == None
  {
  }

  /** `GameObject(type, position)`: the object takes the counter's value as
      its id and the counter moves on by one. `collider` is the value the
      collider member has before the constructor body runs. */
  function Construct(counter: int, t: string, pos: Vec3, collider: Collider): (r: (GameObject, int))
    ensures r.0.id == counter && r.1 == counter + 1
    ensures GetType(r.0) == t && r.0.position == pos
    ensures r.0.look == AppearanceOf(t)
  {
    (GameObject(counter, pos, t, AppearanceOf(t), collider), counter + 1)
  }

  /** One request to the constructor. */
  datatype Request = Request(objType: string, position: Vec3, collider: Collider)

  /** Constructing the requested objects in order, threading the id counter. */
  function ConstructAll(counter: int, reqs: seq<Request>): (r: (seq<GameObject>, int))
    ensures |r.0| == |reqs| && r.1 == counter + |reqs|
    decreases |reqs|
  {
    if |reqs| == 0 then ([], counter)
    else
      var first := Construct(counter, reqs[0].objType, reqs[0].position, reqs[0].collider);
      var rest := ConstructAll(first.1, reqs[1..]);
      ([first.0] + rest.0, rest.1)
  }

  /** The i-th object constructed takes id `counter + i` and the i-th requested type. */
  lemma {:induction false} ConstructAllIds(counter: int, reqs: seq<Request>, i: int)
    requires 0 <= i < |reqs|
    ensures ConstructAll(counter, reqs).0[i].id == counter + i
    ensures GetType(ConstructAll(counter, reqs).0[i]) == reqs[i].objType
    decreases |reqs|
  {
    if i > 0 {
      ConstructAllIds(counter + 1, reqs[1..], i - 1);
    }
  }

  /** Ids come out strictly increasing in construction order, hence unique,
      and never below the counter they started from. */
  lemma IdsStrictlyIncreasing(counter: int, reqs: seq<Request>, i: int, j: int)
    requires 0 <= i < j < |reqs|
    ensures ConstructAll(counter, reqs).0[i].id < ConstructAll(counter, reqs).0[j].id
    ensures ConstructAll(counter, reqs).0[i].id != ConstructAll(counter, reqs).0[j].id
    ensures ConstructAll(counter, reqs).0[i].id >= counter
  {
    ConstructAllIds(counter, reqs, i);
    ConstructAllIds(counter, reqs, j);
  }

  /** Constructing two batches one after the other, with the counter
      threaded between them, is constructing their concatenation. */
  lemma {:induction false} ConstructAllAppend(counter: int, a: seq<Request>, b: seq<Request>)
    ensures ConstructAll(counter, a + b)
         == (ConstructAll(counter, a).0 + ConstructAll(counter + |a|, b).0, counter + |a| + |b|)
    decreases |a|
  {
    if |a| == 0 {
      assert a + b == b;
      assert ConstructAll(counter, a).0 == [];
      assert [] + ConstructAll(counter, b).0 == ConstructAll(counter, b).0;
    } else {
      var o := Construct(counter, a[0].objType, a[0].position, a[0].collider).0;
      assert (a + b)[0] == a[0];
      assert (a + b)[1..] == a[1..] + b;
      ConstructAllAppend(counter + 1, a[1..], b);
      var x := ConstructAll(counter + 1, a[1..]).0;
      var y := ConstructAll(counter + |a|, b).0;
      assert ConstructAll(counter, a + b).0 == [o] + (x + y);
      assert ConstructAll(counter, a).0 == [o] + x;
      assert [o] + (x + y) == ([o] + x) + y;
    }
  }

  /** Every id of a later batch exceeds every id of an earlier one. */
  lemma LaterBatchIdsAreLarger(counter: int, a: seq<Request>, b: seq<Request>, i: int, j: int)
    requires 0 <= i < |a| && 0 <= j < |b|
    ensures ConstructAll(counter, a).0[i].id < ConstructAll(ConstructAll(counter, a).1, b).0[j].id
  {
    var next := ConstructAll(counter, a).1;
    assert next == counter + |a|;
    ConstructAllIds(counter, a, i);
    ConstructAllIds(next, b, j);
  }

  /** The copy constructor: copies id, position, type, scale, mesh, shader,
      colour and lighting. It does not take a new id, and it does not copy
      the collider, which keeps `unlisted`, its default value. */
  function Copy(other: GameObject, unlisted: Collider): (r: GameObject)
    ensures r.id == other.id && r.position == other.position
    ensures GetType(r) == GetType(other) && r.look == other.look
    ensures r.collider == unlisted
  {
    GameObject(other.id, other.position, other.objType, other.look, unlisted)
  }

  /** `getType`. */
  function GetType(o: GameObject): string
  {
    o.objType
  }

  /** `setType`, whose body is in none of the modelled files; it is taken to
      be a plain setter: the type changes, nothing else. */
  function SetType(o: GameObject, t: string): (r: GameObject)
    ensures GetType(r) == t
    ensures r.id == o.id && r.position == o.position && r.look == o.look && r.collider == o.collider
  {
    o.(objType := t)
  }

  /** The type read back is the type given at construction, also through a copy. */
  lemma GetTypeAfterConstruct(counter: int, t: string, pos: Vec3, collider: Collider, unlisted: Collider)
    ensures GetType(Construct(counter, t, pos, collider).0) == t
    ensures GetType(Copy(Construct(counter, t, pos, collider).0, unlisted)) == t
    ensures Copy(Construct(counter, t, pos, collider).0, unlisted).id == counter
  {
  }

  /** The candidate list `CollisionCheck` builds: the colliders of the
      objects whose id differs from `self`'s, in input order. The list holds
      base-type values, so each collider is sliced to its owner and position. */
  function Candidates(self: GameObject, objs: seq<GameObject>): seq<ColliderBase>
    decreases |objs|
  {
    if |objs| == 0 then []
    else
      var last := objs[|objs| - 1];
      Candidates(self, objs[..|objs| - 1]) + (if last.id != self.id then [Slice(last.collider)] else [])
  }

  /** `CollisionCheck`: builds the candidate list with a loop, then returns
      exactly what the collision manager `getCollisions` reports for this
      object's collider against it. */
  method CollisionCheck(self: GameObject, objs: seq<GameObject>,
                        getCollisions: (Collider, seq<ColliderBase>) -> seq<int>)
    returns (ids: seq<int>)
    ensures ids == getCollisions(self.collider, Candidates(self, objs))
  {
    var colArray: seq<ColliderBase> := [];
    var i := 0;
    while i < |objs|
      invariant 0 <= i <= |objs|
      invariant colArray == Candidates(self, objs[..i])
    {
      assert objs[..i + 1][..i] == objs[..i];
      if objs[i].id != self.id {
        colArray := colArray + [Slice(objs[i].collider)];
      }
      i := i + 1;
    }
    assert objs[..|objs|] == objs;
    ids := getCollisions(self.collider, colArray);
  }

  /** The candidate list of a concatenation is the concatenation of the candidate lists. */
  lemma {:induction false} CandidatesAppend(self: GameObject, a: seq<GameObject>, b: seq<GameObject>)
    ensures Candidates(self, a + b) == Candidates(self, a) + Candidates(self, b)
    decreases |b|
  {
    if |b| == 0 {
      assert a + b == a;
    } else {
      var b' := b[..|b| - 1];
      assert (a + b)[..|a + b| - 1] == a + b';
      CandidatesAppend(self, a, b');
    }
  }

  /** When no object carries `self`'s id, every collider is a candidate (sliced), in order. */
  lemma {:induction false} CandidatesAllOthers(self: GameObject, objs: seq<GameObject>)
    requires forall i :: 0 <= i < |objs| ==> objs[i].id != self.id
    ensures Candidates(self, objs) == seq(|objs|, i requires 0 <= i < |objs| => Slice(objs[i].collider))
    decreases |objs|
  {
    if |objs| > 0 {
      CandidatesAllOthers(self, objs[..|objs| - 1]);
    }
  }

  /** A base value is a candidate exactly when some object other than `self`
      (by id) has a collider that slices to it. */
  lemma {:induction false} CandidatesMembership(self: GameObject, objs: seq<GameObject>, c: ColliderBase)
    ensures c in Candidates(self, objs) <==>
            exists i :: 0 <= i < |objs| && objs[i].id != self.id && Slice(objs[i].collider) == c
    decreases |objs|
  {
    if |objs| > 0 {
      var init := objs[..|objs| - 1];
      CandidatesMembership(self, init, c);
      if exists i :: 0 <= i < |objs| && objs[i].id != self.id && Slice(objs[i].collider) == c {
        var i :| 0 <= i < |objs| && objs[i].id != self.id && Slice(objs[i].collider) == c;
        if i < |objs| - 1 {
          assert init[i] == objs[i];
        }
      }
      if c in Candidates(self, init) {
        var i :| 0 <= i < |init| && init[i].id != self.id && Slice(init[i].collider) == c;
        assert objs[i] == init[i];
      }
    }
  }

  /** With `self` present exactly once (by id), the candidate list of n objects has n-1 entries. */
  lemma CandidatesDropSelf(self: GameObject, objs: seq<GameObject>, k: int)
    requires 0 <= k < |objs| && objs[k].id == self.id
    requires forall i :: 0 <= i < |objs| && i != k ==> objs[i].id != self.id
    ensures |Candidates(self, objs)| == |objs| - 1
  {
    var a := objs[..k];
    var b := objs[k + 1..];
    assert objs == a + [objs[k]] + b;
    CandidatesAppend(self, a + [objs[k]], b);
    CandidatesAppend(self, a, [objs[k]]);
    assert Candidates(self, [objs[k]]) == [] by {
      assert [objs[k]][..0] == [];
    }
    CandidatesAllOthers(self, a);
    forall i | 0 <= i < |b| ensures b[i].id != self.id {
      assert b[i] == objs[k + 1 + i];
    }
    CandidatesAllOthers(self, b);
  }
}

/** In-memory records of roles and users, and how they are loaded from the store. */
module Cache {
  import opened Types
  import opened Chain

  /** roleInfo */
  datatype RoleInfo = RoleInfo(base: Option<RoleBase>, nonce: nat)

  /** bucketManage: latest stripe run per chunk position, and marked stripes per provider. */
  datatype Bucket = Bucket(chunks: seq<Option<AggStripe>>, stripes: map<nat, set<nat>>)

  /** segPerUser */
  datatype UserInfo = UserInfo(verifyKey: nat, next: nat, buckets: map<nat, Bucket>)

  function LoadRole(r: RoleDb, id: nat): RoleInfo
  {
    RoleInfo(Find(r.base, id), NonceOf(r, id))
  }

  function LoadUser(fs: FsDb, user: nat): Option<UserInfo>
  {
    if user in fs.verifyKey then Some(UserInfo(fs.verifyKey[user], NextBucket(fs, user), map[])) else None
  }

  function LoadBucket(fs: FsDb, user: nat, bucket: nat): (b: Bucket)
    ensures |b.chunks| == Get(fs.buckets, BucketKey(user, bucket), 0)
    ensures forall i | 0 <= i < |b.chunks| :: b.chunks[i] == LatestStripe(fs, user, bucket, i)
  {
    Bucket(seq(Get(fs.buckets, BucketKey(user, bucket), 0),
               i requires i >= 0 => LatestStripe(fs, user, bucket, i)), map[])
  }

  function NewBucket(chunks: nat): (b: Bucket)
    ensures |b.chunks| == chunks && forall i | 0 <= i < chunks :: b.chunks[i] == None
  {
    Bucket(seq(chunks, _ => None), map[])
  }

  /** getBucketManage: the bucket a user record holds or would load. */
  function BucketOf(fs: FsDb, user: nat, w: UserInfo, bucket: nat): Bucket
  {
    if bucket in w.buckets then w.buckets[bucket] else LoadBucket(fs, user, bucket)
  }

  /** getStripeBitMap */
  function StripesOf(fs: FsDb, user: nat, bucket: nat, b: Bucket, pro: nat): set<nat>
  {
    if pro in b.stripes then b.stripes[pro] else BitsOf(fs, user, bucket, pro)
  }

  // ---- Start-up ----

  /** load: the chain version in force at a height. */
  function VersionAt(height: nat): nat
  {
    if height >= UpdateHeight(3).value then 3
    else if height >= UpdateHeight(2).value then 2
    else if height >= UpdateHeight(1).value then 1
    else 0
  }

  /** load: the last two recorded epochs, where they exist, over the initial ones. */
  function LoadClock(id: nat, epoch: nat, stored: map<nat, ChalEpoch>): Clock
  {
    var first := ChalEpoch(0, 0, id);
    Clock(epoch, if epoch > 0 then Get(stored, epoch - 1, first) else first,
          if epoch > 1 then Get(stored, epoch - 2, first) else first, stored)
  }

  /** load: the stored keepers that have a role record. */
  function LoadKeepers(base: map<nat, RoleBase>, stored: seq<nat>): seq<nat>
  {
    if stored == [] then []
    else
      var rest := LoadKeepers(base, stored[..|stored| - 1]);
      if stored[|stored| - 1] in base then rest + [stored[|stored| - 1]] else rest
  }

  /** NewStateMgr over an existing store: what is not stored is computed again. */
  function Reloaded(id: nat, s: State): State
  {
    s.(ce := LoadClock(id, s.ce.epoch, s.ce.stored), version := VersionAt(s.height),
       roles := s.roles.(keepers := LoadKeepers(s.roles.base, s.roles.keepers)), dates := map[])
  }
}

/** `OGImageCacheManager`: a two-tier image cache. The memory tier maps a
    reference string to a decoded image; the disk tier stores the raw bytes in
    a file named by the reference's digest, inside one of 256 shard directories
    `root/xy` named after the digest's first two hex characters. */
module ImageCache {
  import opened Wrappers
  import opened Text

  /** A decoded image handle (`UIImage`). */
  datatype Image = Image(handle: nat)

  /** The part of the file system the cache touches. */
  datatype Disk = Disk(directories: set<string>, files: map<string, seq<bv8>>)

  /** Both tiers together. */
  datatype Tiers = Tiers(memory: map<string, Image>, disk: Disk)

  // ---------------------------------------------------------------------------
  // Shard directories

  /** `String(format: "%x", n)` for a single hex digit (lower case). */
  function HexDigit(n: nat): (c: char)
    requires n < 16
    ensures IsHexDigit(c)
  {
    if n < 10 then ('0' as int + n) as char else ('a' as int + n - 10) as char
  }

  predicate IsHexDigit(c: char) {
    '0' <= c <= '9' || 'a' <= c <= 'f'
  }

  /** The digit value of a lower-case hex character. */
  function HexValue(c: char): (n: nat)
    requires IsHexDigit(c)
    ensures n < 16 && HexDigit(n) == c
  {
    if c <= '9' then c as int - '0' as int else c as int - 'a' as int + 10
  }

  /** `HexValue` inverts `HexDigit`. */
  lemma HexValueOfDigit(n: nat)
    requires n < 16
    ensures HexValue(HexDigit(n)) == n
  {
  }

  /** The directory name `String(format: "%@/%x%x", root, k / 16, k % 16)`. */
  function ShardPath(root: string, k: nat): (r: string)
    requires k < 256
    ensures |r| == |root| + 3 && r[..|root| + 1] == root + "/"
    ensures IsHexDigit(r[|root| + 1]) && IsHexDigit(r[|root| + 2])
  {
    root + "/" + [HexDigit(k / 16), HexDigit(k % 16)]
  }

  /** Distinct shard indices name distinct directories. */
  lemma ShardPathInjective(root: string, m: nat, n: nat)
    requires m < 256 && n < 256 && ShardPath(root, m) == ShardPath(root, n)
    ensures m == n
  {
    var pm, pn := ShardPath(root, m), ShardPath(root, n);
    assert pm[|root| + 1] == HexDigit(m / 16) && pn[|root| + 1] == HexDigit(n / 16);
    assert pm[|root| + 2] == HexDigit(m % 16) && pn[|root| + 2] == HexDigit(n % 16);
    HexValueOfDigit(m / 16);
    HexValueOfDigit(n / 16);
    HexValueOfDigit(m % 16);
    HexValueOfDigit(n % 16);
  }

  /** The shard directories for the indices `0 .. k-1`. */
  function ShardsBelow(root: string, k: nat): set<string>
    requires k <= 256
  {
    if k == 0 then {} else ShardsBelow(root, k - 1) + {ShardPath(root, k - 1)}
  }

  /** All 256 shard directories. */
  function AllShards(root: string): set<string> {
    ShardsBelow(root, 256)
  }

  lemma {:induction false} ShardsBelowMembers(root: string, k: nat, p: string)
    requires k <= 256
    ensures p in ShardsBelow(root, k) <==> exists n :: 0 <= n < k && p == ShardPath(root, n)
  {
    if k > 0 {
      ShardsBelowMembers(root, k - 1, p);
    }
  }

  lemma {:induction false} ShardsBelowSize(root: string, k: nat)
    requires k <= 256
    ensures |ShardsBelow(root, k)| == k
  {
    if k > 0 {
      ShardsBelowSize(root, k - 1);
      if ShardPath(root, k - 1) in ShardsBelow(root, k - 1) {
        ShardsBelowMembers(root, k - 1, ShardPath(root, k - 1));
        var n :| 0 <= n < k - 1 && ShardPath(root, k - 1) == ShardPath(root, n);
        ShardPathInjective(root, k - 1, n);
      }
    }
  }

  lemma DivMod16(i: nat, j: nat)
    requires i < 16 && j < 16
    ensures 16 * i + j < 256 && (16 * i + j) / 16 == i && (16 * i + j) % 16 == j
  {
  }

  /** The shard set is exactly the 256 names `root/%x%x` for digits i, j below 16. */
  lemma AllShardsExactly(root: string, p: string)
    ensures |AllShards(root)| == 256
    ensures p in AllShards(root) <==>
      exists i: nat, j: nat :: i < 16 && j < 16 && p == root + "/" + [HexDigit(i), HexDigit(j)]
  {
    ShardsBelowSize(root, 256);
    ShardsBelowMembers(root, 256, p);
    if p in AllShards(root) {
      var n :| 0 <= n < 256 && p == ShardPath(root, n);
      assert p == root + "/" + [HexDigit(n / 16), HexDigit(n % 16)];
    }
    if exists i: nat, j: nat :: i < 16 && j < 16 && p == root + "/" + [HexDigit(i), HexDigit(j)] {
      var i: nat, j: nat :| i < 16 && j < 16 && p == root + "/" + [HexDigit(i), HexDigit(j)];
      DivMod16(i, j);
      assert p == ShardPath(root, 16 * i + j);
    }
  }

  // ---------------------------------------------------------------------------
  // File paths

  /** `pathForURLString`, given the md5 digest of the reference. */
  function PathFor(root: string, digest: string): (p: string)
    ensures UnderRoot(root, p)
    ensures |digest| >= 2 ==> |p| == |root| + 4 + |digest| && p[..|root| + 4] == root + "/" + digest[..2] + "/" && p[|root| + 4..] == digest
  {
    var p := if |digest| < 2 then root + "/" else root + "/" + digest[..2] + "/" + digest;
    assert p[..|root| + 1] == root + "/";
    p
  }

  /** `p` is the cache root or lies below it. */
  predicate UnderRoot(root: string, p: string) {
    p == root || StartsWith(p, root + "/")
  }

  /** The path is `root/xy/digest` for a digest of two or more characters, and
      `root/` otherwise; either way it lies below the root. */
  lemma PathForShape(root: string, digest: string)
    ensures |digest| < 2 ==> PathFor(root, digest) == root + "/"
    ensures |digest| >= 2 ==> PathFor(root, digest) == root + "/" + digest[..2] + "/" + digest
    ensures UnderRoot(root, PathFor(root, digest))
  {
    var p := PathFor(root, digest);
    assert p[..|root| + 1] == root + "/";
  }

  /** A hex digest lands in one of the created shard directories. */
  lemma PathInShard(root: string, digest: string)
    requires |digest| >= 2 && IsHexDigit(digest[0]) && IsHexDigit(digest[1])
    ensures PathFor(root, digest) == root + "/" + digest[..2] + "/" + digest
    ensures root + "/" + digest[..2] in AllShards(root)
  {
    var i, j := HexValue(digest[0]), HexValue(digest[1]);
    assert digest[..2] == [HexDigit(i), HexDigit(j)];
    AllShardsExactly(root, root + "/" + digest[..2]);
  }

  /** Distinct digests (of two or more characters) get distinct files. */
  lemma PathInjective(root: string, d1: string, d2: string)
    requires |d1| >= 2 && |d2| >= 2 && PathFor(root, d1) == PathFor(root, d2)
    ensures d1 == d2
  {
    var p := PathFor(root, d1);
    assert |d1| == |d2|;
    assert p[|root| + 4..] == d1;
    assert PathFor(root, d2)[|root| + 4..] == d2;
  }

  // ---------------------------------------------------------------------------
  // The operations on both tiers

  /** `cachedImage`: memory first; on a miss, read and decode the file and
      promote the image into memory. */
  function Lookup(t: Tiers, root: string, md5: string -> string, decode: seq<bv8> -> Option<Image>, urlString: string): (r: (Option<Image>, Tiers))
    ensures r.1.disk == t.disk
    ensures urlString in t.memory ==> r == (Some(t.memory[urlString]), t)
    ensures urlString !in t.memory && r.0.Some? ==>
      var path := PathFor(root, md5(urlString));
      && path in t.disk.files && decode(t.disk.files[path]) == r.0
      && r.1.memory == t.memory[urlString := r.0.value]
    ensures r.0.None? <==>
      urlString !in t.memory &&
      var path := PathFor(root, md5(urlString));
      (path !in t.disk.files || decode(t.disk.files[path]).None?)
    ensures r.0.None? ==> r.1 == t
  {
    if urlString in t.memory then (Some(t.memory[urlString]), t)
    else
      var path := PathFor(root, md5(urlString));
      if path in t.disk.files && decode(t.disk.files[path]).Some? then
        var image := decode(t.disk.files[path]).value;
        (Some(image), t.(memory := t.memory[urlString := image]))
      else (None, t)
  }

  /** `storeImage`: into memory and onto disk. */
  function Store(t: Tiers, root: string, md5: string -> string, image: Image, data: seq<bv8>, urlString: string): (r: Tiers)
    ensures r.memory.Keys == t.memory.Keys + {urlString} && r.memory[urlString] == image
    ensures forall u :: u in t.memory && u != urlString ==> r.memory[u] == t.memory[u]
    ensures var path := PathFor(root, md5(urlString));
      && r.disk.files.Keys == t.disk.files.Keys + {path} && r.disk.files[path] == data
      && (forall p :: p in t.disk.files && p != path ==> r.disk.files[p] == t.disk.files[p])
    ensures r.disk.directories == t.disk.directories
  {
    var path := PathFor(root, md5(urlString));
    Tiers(t.memory[urlString := image], t.disk.(files := t.disk.files[path := data]))
  }

  /** `clearMemoryCache` */
  function ClearMemory(t: Tiers): (r: Tiers)
    ensures r.memory == map[] && r.disk == t.disk
  {
    t.(memory := map[])
  }

  /** `createRootDirectoryIfNeeded` followed by `createSubDirectoriesIfNeeded`. */
  function CreateDirectories(d: Disk, root: string): (r: Disk)
    ensures r.files == d.files
    ensures r.directories == d.directories + {root} + AllShards(root)
  {
    d.(directories := d.directories + {root} + AllShards(root))
  }

  /** `removeItem(atPath: root)`: the root and everything below it. */
  function RemoveTree(d: Disk, root: string): (r: Disk)
    ensures forall p :: p in r.directories <==> p in d.directories && !UnderRoot(root, p)
    ensures forall p :: p in r.files <==> p in d.files && !UnderRoot(root, p)
    ensures forall p :: p in r.files ==> r.files[p] == d.files[p]
  {
    Disk(set p | p in d.directories && !UnderRoot(root, p),
         map p | p in d.files && !UnderRoot(root, p) :: d.files[p])
  }

  /** `fileExists(atPath: root)` */
  predicate RootExists(d: Disk, root: string) {
    root in d.directories || root in d.files
  }

  /** `clearAllCache`: memory emptied, the root removed when it exists, the
      directory tree recreated. */
  function ClearAll(t: Tiers, root: string): (r: Tiers)
    ensures r.memory == map[]
    // the directory tree is recreated over what the removal left
    ensures r.disk.directories ==
      (if RootExists(t.disk, root) then set p | p in t.disk.directories && !UnderRoot(root, p) else t.disk.directories)
      + {root} + AllShards(root)
    // files outside the root are untouched
    ensures forall p :: !UnderRoot(root, p) ==>
      (p in r.disk.files <==> p in t.disk.files) && (p in r.disk.files ==> r.disk.files[p] == t.disk.files[p])
    // when the root existed no file remains below it; otherwise no file changes
    ensures RootExists(t.disk, root) ==> forall p :: p in r.disk.files ==> !UnderRoot(root, p)
    ensures !RootExists(t.disk, root) ==> r.disk.files == t.disk.files
  {
    var cleared := ClearMemory(t);
    if !RootExists(cleared.disk, root) then cleared.(disk := CreateDirectories(cleared.disk, root))
    else cleared.(disk := CreateDirectories(RemoveTree(cleared.disk, root), root))
  }

  /** Files below the root exist only while the root does. */
  predicate Coherent(d: Disk, root: string) {
    forall p :: p in d.files && UnderRoot(root, p) ==> RootExists(d, root)
  }

  /** After a store, the reference is a memory hit with the stored image. */
  lemma StoreThenLookup(t: Tiers, root: string, md5: string -> string, decode: seq<bv8> -> Option<Image>, image: Image, data: seq<bv8>, urlString: string)
    ensures var s := Store(t, root, md5, image, data, urlString);
      Lookup(s, root, md5, decode, urlString) == (Some(image), s)
  {
  }

  /** Clearing memory keeps the disk tier: a stored reference is then found by
      decoding its stored bytes, and promoted back into memory. */
  lemma StoreSurvivesMemoryClear(t: Tiers, root: string, md5: string -> string, decode: seq<bv8> -> Option<Image>, image: Image, data: seq<bv8>, urlString: string)
    ensures var c := ClearMemory(Store(t, root, md5, image, data, urlString));
      var r := Lookup(c, root, md5, decode, urlString);
      && r.0 == decode(data)
      && (r.0.Some? ==> r.1.memory == map[urlString := r.0.value])
      && r.1.disk == c.disk
  {
  }

  /** After clearing everything, no reference is found in either tier. */
  lemma ClearAllForgets(t: Tiers, root: string, md5: string -> string, decode: seq<bv8> -> Option<Image>, urlString: string)
    requires Coherent(t.disk, root)
    ensures var c := ClearAll(t, root);
      Lookup(c, root, md5, decode, urlString) == (None, c)
  {
    PathForShape(root, md5(urlString));
  }

  // ---------------------------------------------------------------------------
  // The cache manager object

  class OGImageCacheManager {
    /** The `images` directory under the user's caches directory. */
    const cacheDirectory: string
    /** `String.md5()` and `UIImage(contentsOfFile:)`, both foreign. */
    const md5: string -> string
    const decode: seq<bv8> -> Option<Image>

    var memoryCache: map<string, Image>
    var directories: set<string>
    var files: map<string, seq<bv8>>

    function State(): Tiers
      reads this
    {
      Tiers(memoryCache, Disk(directories, files))
    }

    /** The cache root exists: `init` creates it, and `clearAllCache` creates
        it again after removing it. */
    predicate Valid()
      reads this
    {
      cacheDirectory in directories
    }

    /** `init()`: starts with an empty memory tier over the existing disk and
        creates the directory tree. */
    constructor (cacheDirectory: string, md5: string -> string, decode: seq<bv8> -> Option<Image>, disk: Disk)
      ensures this.cacheDirectory == cacheDirectory && this.md5 == md5 && this.decode == decode
      ensures State() == Tiers(map[], CreateDirectories(disk, cacheDirectory))
      ensures Valid()
    {
      this.cacheDirectory := cacheDirectory;
      this.md5 := md5;
      this.decode := decode;
      memoryCache := map[];
      directories := disk.directories;
      files := disk.files;
      new;
      CreateDirectoriesIfNeeded();
    }

    /** `didReceiveMemoryWarning(_:)` */
    method DidReceiveMemoryWarning()
      modifies this`memoryCache
      ensures old(Valid()) ==> Valid()
      ensures State() == ClearMemory(old(State()))
    {
      ClearMemoryCache();
    }

    method CreateDirectoriesIfNeeded()
      modifies this`directories
      ensures directories == old(directories) + {cacheDirectory} + AllShards(cacheDirectory)
    {
      CreateRootDirectoryIfNeeded();
      CreateSubDirectoriesIfNeeded();
    }

    method CreateRootDirectoryIfNeeded()
      modifies this`directories
      ensures directories == old(directories) + {cacheDirectory}
    {
      if cacheDirectory in directories {
        return;
      }
      directories := directories + {cacheDirectory};
    }

    /** Creates each of the 256 shard directories that is not there yet. */
    method CreateSubDirectoriesIfNeeded()
      modifies this`directories
      ensures directories == old(directories) + AllShards(cacheDirectory)
    {
      for i := 0 to 16
        invariant directories == old(directories) + ShardsBelow(cacheDirectory, 16 * i)
      {
        for j := 0 to 16
          invariant directories == old(directories) + ShardsBelow(cacheDirectory, 16 * i + j)
        {
          DivMod16(i, j);
          var directoryName := cacheDirectory + "/" + [HexDigit(i), HexDigit(j)];
          assert directoryName == ShardPath(cacheDirectory, 16 * i + j);
          assert ShardsBelow(cacheDirectory, 16 * i + j + 1) == ShardsBelow(cacheDirectory, 16 * i + j) + {directoryName};
          if directoryName in directories {
            continue;
          }
          directories := directories + {directoryName};
        }
      }
    }

    method CachedImage(urlString: string) returns (image: Option<Image>)
      modifies this`memoryCache
      ensures old(Valid()) ==> Valid()
      ensures (image, State()) == Lookup(old(State()), cacheDirectory, md5, decode, urlString)
    {
      if urlString in memoryCache {
        return Some(memoryCache[urlString]);
      }
      var path := PathFor(cacheDirectory, md5(urlString));
      if path in files && decode(files[path]).Some? {
        image := decode(files[path]);
        memoryCache := memoryCache[urlString := image.value];
        return image;
      }
      return None;
    }

    method StoreImage(image: Image, data: seq<bv8>, urlString: string)
      modifies this`memoryCache, this`files
      ensures old(Valid()) ==> Valid()
      ensures State() == Store(old(State()), cacheDirectory, md5, image, data, urlString)
    {
      memoryCache := memoryCache[urlString := image];
      files := files[PathFor(cacheDirectory, md5(urlString)) := data];
    }

    method ClearMemoryCache()
      modifies this`memoryCache
      ensures old(Valid()) ==> Valid()
      ensures State() == ClearMemory(old(State()))
    {
      memoryCache := map[];
    }

    method ClearAllCache()
      modifies this`memoryCache, this`directories, this`files
      ensures Valid()
      ensures State() == ClearAll(old(State()), cacheDirectory)
      // from a valid manager, no reference is found afterwards in either tier
      ensures old(Valid()) ==> forall u :: Lookup(State(), cacheDirectory, md5, decode, u) == (None, State())
    {
      ghost var cleared := ClearAll(State(), cacheDirectory);
      forall u | Valid()
        ensures Lookup(cleared, cacheDirectory, md5, decode, u) == (None, cleared)
      {
        ClearAllForgets(State(), cacheDirectory, md5, decode, u);
      }
      ClearMemoryCache();
      if !(cacheDirectory in directories || cacheDirectory in files) {
        CreateDirectoriesIfNeeded();
        return;
      }
      var remaining := RemoveTree(Disk(directories, files), cacheDirectory);
      directories, files := remaining.directories, remaining.files;
      CreateDirectoriesIfNeeded();
    }
  }
}

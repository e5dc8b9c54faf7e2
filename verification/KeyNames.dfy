/**
 The file names of SSH keys (subsystems/ssh/keys.go). A key lives under its own name; an interrupted write is staged
 under a name that carries a digest of its metadata; an interrupted deletion leaves a tombstone. Recovery tells them
 apart by name alone.
 */
module KeyNames {
  import opened Text
  import opened SessionTypes

  const DELETE_PREFIX := ".delete-"
  const PUT_PREFIX := ".put-"
  const DIGEST_SIZE := 64

  predicate ValidKeyName(name: string) { SafeName(name, 64) && !HasSuffix(name, ".pub") }

  predicate IsHex(c: char) { IsDigit(c) || 'a' <= c <= 'f' || 'A' <= c <= 'F' }

  /** The hexadecimal form of a digest. */
  predicate HexDigest(s: string) { |s| == DIGEST_SIZE && forall i :: 0 <= i < |s| ==> IsHex(s[i]) }

  function TombstoneName(name: string): string { DELETE_PREFIX + name }

  function StageName(name: string, digest: string): string { PUT_PREFIX + name + "-" + digest }

  function TrimPrefix(s: string, prefix: string): string { if prefix <= s then s[|prefix|..] else s }

  /** The key a staged file belongs to. As in the source, the prefix is trimmed but not required. */
  function StagedKey(file: string): (r: Option<string>)
    ensures r.Some? ==> ValidKeyName(r.value)
  {
    var rest := TrimPrefix(file, PUT_PREFIX);
    if |rest| <= DIGEST_SIZE + 1 || rest[|rest| - DIGEST_SIZE - 1] != '-' then None
    else
      var name := rest[..|rest| - DIGEST_SIZE - 1];
      if HexDigest(rest[|rest| - DIGEST_SIZE..]) && ValidKeyName(name) then Some(name) else None
  }

  /** The key a tombstone belongs to. */
  function TombstoneKey(file: string): (r: Option<string>)
    ensures r.Some? ==> ValidKeyName(r.value)
  {
    if DELETE_PREFIX <= file && ValidKeyName(file[|DELETE_PREFIX|..]) then Some(file[|DELETE_PREFIX|..]) else None
  }

  /** What recovery takes a file for. */
  datatype Kind = Ordinary | Staged(name: string) | Tombstone(name: string)

  function KindOf(file: string): Kind {
    if StagedKey(file).Some? then Staged(StagedKey(file).value)
    else if TombstoneKey(file).Some? then Tombstone(TombstoneKey(file).value)
    else Ordinary
  }

  /** A key's own file is left alone: its name is too short to hold a digest and does not start with a dot. */
  lemma TargetIsOrdinary(name: string)
    requires ValidKeyName(name)
    ensures KindOf(name) == Ordinary
  {
    assert name[0] != '.';
    assert !(PUT_PREFIX <= name) && !(DELETE_PREFIX <= name);
  }

  lemma StageDecodes(name: string, digest: string)
    requires ValidKeyName(name) && HexDigest(digest)
    ensures KindOf(StageName(name, digest)) == Staged(name)
  {
    var file := StageName(name, digest);
    var rest := name + "-" + digest;
    assert file == PUT_PREFIX + rest;
    assert TrimPrefix(file, PUT_PREFIX) == rest;
    assert |rest| == |name| + 1 + DIGEST_SIZE;
    assert rest[|name|] == '-' && rest[..|name|] == name && rest[|name| + 1..] == digest;
  }

  /** A tombstone never reads as a staged file: what precedes the digest would start with a dot. */
  lemma TombstoneDecodes(name: string)
    requires ValidKeyName(name)
    ensures KindOf(TombstoneName(name)) == Tombstone(name)
  {
    var file := TombstoneName(name);
    assert file[0] == '.' && file[1] == 'd';
    assert !(PUT_PREFIX <= file) by { assert PUT_PREFIX[1] == 'p'; }
    assert file[|DELETE_PREFIX|..] == name;
    assert StagedKey(file).None? by {
      if |file| > DIGEST_SIZE + 1 { assert file[..|file| - DIGEST_SIZE - 1][0] == '.'; }
    }
  }

  /** The three names of a key, and those of different keys, never coincide. */
  lemma NamesAreDisjoint(a: string, b: string, digestA: string, digestB: string)
    requires ValidKeyName(a) && ValidKeyName(b) && HexDigest(digestA) && HexDigest(digestB)
    ensures a != TombstoneName(b) && a != StageName(b, digestB) && StageName(a, digestA) != TombstoneName(b)
    ensures TombstoneName(a) == TombstoneName(b) ==> a == b
    ensures StageName(a, digestA) == StageName(b, digestB) ==> a == b
  {
    TargetIsOrdinary(a);
    StageDecodes(a, digestA);
    StageDecodes(b, digestB);
    TombstoneDecodes(a);
    TombstoneDecodes(b);
  }
}

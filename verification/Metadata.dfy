/** Metadata keys: how a data key is wrapped to name its replication factor, and unwrapped again. */
module Metadata {
  import opened Types

  const IDENTIFIER: string := "ANNA_METADATA"
  const DELIMITER: char := '|'
  const TYPE_REPLICATION: string := "replication"

  /** `string::find` of the delimiter from an index on; -1 stands for `npos`. */
  function FindFrom(s: string, from: nat): (i: int)
    requires from <= |s|
    ensures i == -1 || (from <= i < |s| && s[i] == DELIMITER)
    ensures forall j :: from <= j < (if i == -1 then |s| else i) ==> s[j] != DELIMITER
    decreases |s| - from
  {
    if from == |s| then -1 else if s[from] == DELIMITER then from else FindFrom(s, from + 1)
  }

  /** The text before the first delimiter is the metadata identifier. */
  predicate IsMetadata(key: Key) {
    var n := FindFrom(key, 0);
    (if n == -1 then key else key[..n]) == IDENTIFIER
  }

  /** The key under which the replication factor of `key` is stored. */
  function ReplicationKey(key: Key): (r: Key) {
    IDENTIFIER + [DELIMITER] + TYPE_REPLICATION + [DELIMITER] + key
  }

  /**
   * `get_key_from_metadata`, for any string: `npos + 1` wraps to 0, and a length counted from `npos` runs to the end.
   */
  function KeyOf(metadataKey: Key): (r: Key) {
    var nId := FindFrom(metadataKey, 0);
    var nType := FindFrom(metadataKey, nId + 1);
    var kind := if nType == -1 then metadataKey[nId + 1..] else metadataKey[nId + 1..nType];
    if kind == TYPE_REPLICATION then metadataKey[nType + 1..] else ""
  }

  lemma FirstDelimiter(a: string, b: string, s: string, from: nat)
    requires forall j :: 0 <= j < |a| ==> a[j] != DELIMITER
    requires from <= |s| && s[from..] == a + [DELIMITER] + b
    ensures FindFrom(s, from) == from + |a|
    ensures s[from..from + |a|] == a && s[from + |a| + 1..] == b
  {
    var n := FindFrom(s, from);
    forall j | 0 <= j < |a| + 1 + |b| ensures s[from + j] == (a + [DELIMITER] + b)[j] {
      assert s[from..][j] == s[from + j];
    }
    assert s[from + |a|] == DELIMITER;
    forall i | from <= i < from + |a| ensures s[i] != DELIMITER { assert s[from + (i - from)] == a[i - from]; }
  }

  /** Metadata keys are the identifier itself and what begins with it and a delimiter. */
  lemma IsMetadataExactly(key: Key)
    ensures IsMetadata(key) <==> key == IDENTIFIER || IDENTIFIER + [DELIMITER] <= key
  {
    var n := FindFrom(key, 0);
    if IDENTIFIER + [DELIMITER] <= key {
      assert key[0..] == IDENTIFIER + [DELIMITER] + key[|IDENTIFIER| + 1..];
      FirstDelimiter(IDENTIFIER, key[|IDENTIFIER| + 1..], key, 0);
    }
    if IsMetadata(key) && n != -1 {
      assert key[..n + 1] == IDENTIFIER + [DELIMITER];
    }
  }

  /** What unwrapping gives for a key with an identifier and a kind: the rest after the kind, if that is replication. */
  lemma KeyOfExactly(id: string, kind: string, rest: Key)
    requires DELIMITER !in id && DELIMITER !in kind
    ensures KeyOf(id + [DELIMITER] + kind + [DELIMITER] + rest) == if kind == TYPE_REPLICATION then rest else ""
  {
    var w := id + [DELIMITER] + kind + [DELIMITER] + rest;
    assert w[0..] == id + [DELIMITER] + (kind + [DELIMITER] + rest);
    FirstDelimiter(id, kind + [DELIMITER] + rest, w, 0);
    FirstDelimiter(kind, rest, w, |id| + 1);
  }

  /** Unwrapping undoes wrapping for every key, delimiters inside the key included; wrapped keys are metadata. */
  lemma ReplicationKeyRoundTrip(key: Key)
    ensures KeyOf(ReplicationKey(key)) == key
    ensures IsMetadata(ReplicationKey(key))
  {
    var w := ReplicationKey(key);
    var rest := TYPE_REPLICATION + [DELIMITER] + key;
    assert w == IDENTIFIER + [DELIMITER] + rest;
    FirstDelimiter(IDENTIFIER, rest, w, 0);
    FirstDelimiter(TYPE_REPLICATION, key, w, |IDENTIFIER| + 1);
  }

  /** So distinct keys have distinct replication keys. */
  lemma ReplicationKeyInjective(a: Key, b: Key)
    requires ReplicationKey(a) == ReplicationKey(b)
    ensures a == b
  {
    ReplicationKeyRoundTrip(a);
    ReplicationKeyRoundTrip(b);
  }
}

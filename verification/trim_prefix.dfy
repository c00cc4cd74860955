/**
 * `trimCommonPrefix` (kops/resource_kops_cluster.go): while the first name
 * is longer than one byte and every name starts with the first name's first
 * byte, that byte is cut from every name. Go strings are byte strings and the
 * function works on the caller's slice in place, so the model works on an
 * array of byte sequences.
 */
module TrimPrefix {

  newtype byte = x: int | 0 <= x < 256

  type Bytes = seq<byte>

  /** `strings.HasPrefix(name, prefix)`. */
  predicate HasPrefix(name: Bytes, prefix: Bytes) {
    |prefix| <= |name| && name[..|prefix|] == prefix
  }

  /** `strings.TrimPrefix(name, prefix)`. */
  function TrimPrefix(name: Bytes, prefix: Bytes): (r: Bytes)
    ensures HasPrefix(name, prefix) ==> prefix + r == name
    ensures !HasPrefix(name, prefix) ==> r == name
  {
    if HasPrefix(name, prefix) then name[|prefix|..] else name
  }

  /** Every name starts with the byte `b`. */
  predicate AllStartWith(names: seq<Bytes>, b: byte) {
    forall i :: 0 <= i < |names| ==> |names[i]| > 0 && names[i][0] == b
  }

  /** The loop keeps going: there is a first name longer than one byte whose first byte all names share. */
  predicate CanTrim(names: seq<Bytes>) {
    |names| != 0 && |names[0]| > 1 && AllStartWith(names, names[0][0])
  }

  function DropFirstByte(names: seq<Bytes>): (r: seq<Bytes>)
    requires forall i :: 0 <= i < |names| ==> |names[i]| > 0
    ensures |r| == |names|
  {
    seq(|names|, i requires 0 <= i < |names| => names[i][1..])
  }

  /** What `trimCommonPrefix` leaves in the slice. */
  function Trimmed(names: seq<Bytes>): seq<Bytes>
    decreases if |names| == 0 then 0 else |names[0]|
  {
    if CanTrim(names) then Trimmed(DropFirstByte(names)) else names
  }

  /** How many bytes `trimCommonPrefix` cuts from each name. */
  function TrimDepth(names: seq<Bytes>): nat
    decreases if |names| == 0 then 0 else |names[0]|
  {
    if CanTrim(names) then 1 + TrimDepth(DropFirstByte(names)) else 0
  }

  /** `trimCommonPrefix`: overwrites the names in place and hands the same slice back. */
  method TrimCommonPrefix(names: array<Bytes>) returns (result: array<Bytes>)
    modifies names
    ensures result == names
    ensures names[..] == Trimmed(old(names[..]))
  {
    while names.Length != 0 && |names[0]| > 1
      invariant Trimmed(names[..]) == Trimmed(old(names[..]))
      decreases if names.Length == 0 then 0 else |names[0]|
    {
      var prefix := names[0][..1];
      var allMatch := true;
      for i := 0 to names.Length
        invariant allMatch <==> forall j :: 0 <= j < i ==> HasPrefix(names[j], prefix)
      {
        if !HasPrefix(names[i], prefix) {
          allMatch := false;
        }
      }
      if !allMatch {
        assert !AllStartWith(names[..], names[0][0]) by {
          var j :| 0 <= j < names.Length && !HasPrefix(names[j], prefix);
          assert !(|names[..][j]| > 0 && names[..][j][0] == names[0][0]);
        }
        break;
      }
      ghost var before := names[..];
      assert forall j :: 0 <= j < names.Length ==> |names[j]| > 0 && names[j][0] == names[0][0] by {
        forall j | 0 <= j < names.Length ensures |names[j]| > 0 && names[j][0] == names[0][0] {
          assert HasPrefix(names[j], prefix);
          assert names[j][..1][0] == names[j][0];
        }
      }
      assert CanTrim(before);
      for i := 0 to names.Length
        invariant forall j :: 0 <= j < i ==> names[j] == before[j][1..]
        invariant forall j :: i <= j < names.Length ==> names[j] == before[j]
      {
        assert HasPrefix(names[i], prefix);
        names[i] := TrimPrefix(names[i], prefix);
      }
      assert names[..] == DropFirstByte(before);
    }
    result := names;
  }

  /**
   * What the loop does: the same number of names in the same order, each
   * with its first `TrimDepth` bytes removed, and those bytes are the same
   * in every name.
   */
  lemma {:induction false} TrimmedDropsCommonPrefix(names: seq<Bytes>)
    ensures var k, r := TrimDepth(names), Trimmed(names);
      && |r| == |names|
      && (forall i :: 0 <= i < |names| ==> k <= |names[i]| && r[i] == names[i][k..])
      && (forall i :: 0 <= i < |names| ==> names[i][..k] == names[0][..k])
    decreases if |names| == 0 then 0 else |names[0]|
  {
    if CanTrim(names) {
      var next := DropFirstByte(names);
      TrimmedDropsCommonPrefix(next);
      var k := TrimDepth(next);
      forall i | 0 <= i < |names|
        ensures k + 1 <= |names[i]| && Trimmed(names)[i] == names[i][k + 1..]
        ensures names[i][..k + 1] == names[0][..k + 1]
      {
        assert next[i] == names[i][1..];
        assert names[i][1..][k..] == names[i][k + 1..];
        assert names[i][..k + 1] == [names[i][0]] + next[i][..k];
        assert names[0][..k + 1] == [names[0][0]] + next[0][..k];
      }
    }
  }

  /**
   * Why the loop stopped: there are no names, the first is at most one byte
   * long, or some name does not start with the first name's first byte.
   */
  lemma {:induction false} TrimmedStops(names: seq<Bytes>)
    ensures var r := Trimmed(names);
      |r| == 0 || |r[0]| <= 1 || exists i :: 0 <= i < |r| && !(|r[i]| > 0 && r[i][0] == r[0][0])
    decreases if |names| == 0 then 0 else |names[0]|
  {
    if CanTrim(names) {
      TrimmedStops(DropFirstByte(names));
    }
  }

  /** Only the first name's length is checked: `["ab", "a"]` becomes `["b", ""]`. */
  lemma ShorterNameEmptied()
    ensures Trimmed([[97, 98], [97]]) == [[98], []]
  {
    var names: seq<Bytes> := [[97, 98], [97]];
    assert CanTrim(names);
    assert DropFirstByte(names) == [[98], []];
    assert !CanTrim([[98], []]);
  }

  /** Two names that differ only in their last byte are cut down to that byte. */
  lemma {:induction false} LastByteKept(p: Bytes, a: byte, b: byte)
    requires a != b
    ensures Trimmed([p + [a], p + [b]]) == [[a], [b]]
    decreases |p|
  {
    var names := [p + [a], p + [b]];
    if |p| == 0 {
      assert p + [a] == [a] && p + [b] == [b];
    } else {
      assert CanTrim(names) by {
        assert names[0][0] == p[0] && names[1][0] == p[0];
      }
      assert DropFirstByte(names) == [p[1..] + [a], p[1..] + [b]] by {
        assert (p + [a])[1..] == p[1..] + [a];
        assert (p + [b])[1..] == p[1..] + [b];
      }
      LastByteKept(p[1..], a, b);
    }
  }

  /** `["master-a", "master-b"]` becomes `["a", "b"]`. */
  lemma MasterNames()
    ensures Trimmed([[109, 97, 115, 116, 101, 114, 45, 97], [109, 97, 115, 116, 101, 114, 45, 98]]) == [[97], [98]]
  {
    var master: Bytes := [109, 97, 115, 116, 101, 114, 45];
    assert [109, 97, 115, 116, 101, 114, 45, 97] == master + [97];
    assert [109, 97, 115, 116, 101, 114, 45, 98] == master + [98];
    LastByteKept(master, 97, 98);
  }

  /** Names that do not all start with the first name's first byte are left alone. */
  lemma DifferentFirstBytes(names: seq<Bytes>)
    requires |names| > 0 && |names[0]| > 0
    requires exists i :: 0 <= i < |names| && !(|names[i]| > 0 && names[i][0] == names[0][0])
    ensures Trimmed(names) == names
  {
  }
}

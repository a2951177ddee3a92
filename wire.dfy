/** The two formats written to standard output.

    Binary: one record per filter, a two-byte big-endian length (the length taken
    modulo 2^16, as Go's `uint16` conversion does) followed by the filter bytes, with
    nothing between records.

    Hashes: a Go source file holding one string constant, `cfilterv2RawHashes_<network>`,
    whose value is the hex hash of every filter, concatenated. */
module Wire {
  import opened Common

  /** Go's `binary.BigEndian.PutUint16(size[:], uint16(n))`. */
  function PutUint16(n: nat): (r: seq<byte>)
    ensures |r| == 2 && r[0] as int * 256 + r[1] == n % 65536
  {
    var v := n % 65536;
    [v / 256, v % 256]
  }

  /** Reads the two-byte big-endian length at the start of `s`. */
  function Uint16(s: seq<byte>): (n: nat)
    requires |s| >= 2
    ensures n < 65536
  {
    s[0] as int * 256 + s[1]
  }

  /** One binary record. */
  function EncodeRecord(f: seq<byte>): (r: seq<byte>)
    ensures |r| == |f| + 2 && r[2..] == f
    ensures Uint16(r) == |f| % 65536
  {
    PutUint16(|f|) + f
  }

  /** The records of `fs`, in order, with no separators. */
  function EncodeAll(fs: seq<seq<byte>>): seq<byte>
  {
    if fs == [] then [] else EncodeRecord(fs[0]) + EncodeAll(fs[1..])
  }

  lemma {:induction false} EncodeAllAppend(a: seq<seq<byte>>, b: seq<seq<byte>>)
    ensures EncodeAll(a + b) == EncodeAll(a) + EncodeAll(b)
  {
    if a != [] {
      assert (a + b)[1..] == a[1..] + b;
      EncodeAllAppend(a[1..], b);
    } else {
      assert a + b == b;
    }
  }

  /** Splits a binary stream back into records: read a two-byte length, then that
      many bytes, until the stream is used up; `None` if a record is cut short. */
  function Decode(s: seq<byte>): (r: Option<seq<seq<byte>>>)
    ensures r.Some? ==> forall i :: 0 <= i < |r.value| ==> |r.value[i]| < 65536
    decreases |s|
  {
    if s == [] then Some([])
    else if |s| < 2 || |s| < 2 + Uint16(s) then None
    else
      var n := Uint16(s);
      match Decode(s[2 + n..])
      case None => None
      case Some(rest) => Some([s[2..2 + n]] + rest)
  }

  /** The round trip: decoding the records of `fs` gives back exactly `fs` if, and
      only if, no filter is longer than the two-byte length can say. */
  lemma {:induction false} DecodeEncodeAll(fs: seq<seq<byte>>)
    ensures Decode(EncodeAll(fs)) == Some(fs) <==> forall i :: 0 <= i < |fs| ==> |fs[i]| < 65536
  {
    if fs != [] {
      var f, s := fs[0], EncodeAll(fs);
      assert s == EncodeRecord(f) + EncodeAll(fs[1..]);
      var n := Uint16(s);
      assert n == |f| % 65536;
      if |f| < 65536 {
        assert s[2..2 + n] == f;
        assert s[2 + n..] == EncodeAll(fs[1..]);
        DecodeEncodeAll(fs[1..]);
        if forall i :: 0 <= i < |fs| ==> |fs[i]| < 65536 {
          assert forall i :: 0 <= i < |fs| - 1 ==> |fs[1..][i]| < 65536 by {
            forall i | 0 <= i < |fs| - 1 ensures |fs[1..][i]| < 65536 {
              assert fs[1..][i] == fs[i + 1];
            }
          }
          assert [f] + fs[1..] == fs;
        } else {
          var j :| 0 <= j < |fs| && |fs[j]| >= 65536;
          assert fs[1..][j - 1] == fs[j];
        }
      } else {
        // The length prefix names fewer bytes than the filter holds, so the first
        // record decoded, if any, is shorter than the filter.
        assert n < |f|;
      }
    }
  }

  // ---------------------------------------------------------------------------
  // Hashes document

  /** The length of a hash written as hex text. */
  const HashTextLen: nat := 64

  const Banner := "// Autogenerated by github.com/matheusd/cfiltersv2hashes\n\n"
  const Package := "package validate\n\n"
  const ConstPrefix := "const cfilterv2RawHashes_"
  const ConstType := " string = \""
  const Closer := "\"\n"

  /** The network name used in the constant's name and in the log. */
  function Network(testNet: bool): (name: string)
    ensures name == "testnet3" <==> testNet
    ensures name == "mainnet" <==> !testNet
  {
    if testNet then "testnet3" else "mainnet"
  }

  /** The text written before the first hash. */
  function Preamble(network: string): seq<byte>
  {
    Bytes(Banner) + Bytes(Package) + Bytes(ConstPrefix) + Bytes(network) + Bytes(ConstType)
  }

  /** The text written after the last hash. */
  function Closing(): seq<byte>
  {
    Bytes(Closer)
  }

  /** The whole hashes document for the hash texts `hs`. */
  function HashesDoc(network: string, hs: seq<seq<byte>>): seq<byte>
  {
    Preamble(network) + Concat(hs) + Closing()
  }

  /** Cuts `s` into pieces of `HashTextLen` bytes; `None` if a piece would be short. */
  function Chunks(s: seq<byte>): (r: Option<seq<seq<byte>>>)
    ensures r.Some? ==> forall i :: 0 <= i < |r.value| ==> |r.value[i]| == HashTextLen
    decreases |s|
  {
    if s == [] then Some([])
    else if |s| < HashTextLen then None
    else
      match Chunks(s[HashTextLen..])
      case None => None
      case Some(rest) => Some([s[..HashTextLen]] + rest)
  }

  /** Reads a hashes document back: which network it is for and the hash texts. */
  function ParseHashesDoc(doc: seq<byte>): Option<(string, seq<seq<byte>>)>
  {
    if HasFrame(doc, "mainnet") then ParseBody(doc, "mainnet")
    else if HasFrame(doc, "testnet3") then ParseBody(doc, "testnet3")
    else None
  }

  predicate HasFrame(doc: seq<byte>, network: string)
  {
    var p := Preamble(network);
    |doc| >= |p| + |Closing()| && doc[..|p|] == p && doc[|doc| - |Closing()|..] == Closing()
  }

  function ParseBody(doc: seq<byte>, network: string): Option<(string, seq<seq<byte>>)>
    requires HasFrame(doc, network)
  {
    match Chunks(doc[|Preamble(network)|..|doc| - |Closing()|])
    case None => None
    case Some(hs) => Some((network, hs))
  }

  lemma {:induction false} ChunksConcat(hs: seq<seq<byte>>)
    requires forall i :: 0 <= i < |hs| ==> |hs[i]| == HashTextLen
    ensures Chunks(Concat(hs)) == Some(hs)
  {
    if hs != [] {
      var s := Concat(hs);
      assert s == hs[0] + Concat(hs[1..]);
      assert s[..HashTextLen] == hs[0];
      assert s[HashTextLen..] == Concat(hs[1..]);
      ChunksConcat(hs[1..]);
      assert [hs[0]] + hs[1..] == hs;
    }
  }

  /** Neither network's preamble is a prefix of a document written for the other. */
  lemma PreamblesDiffer()
    ensures |Preamble("mainnet")| < |Preamble("testnet3")|
    ensures Preamble("testnet3")[..|Preamble("mainnet")|] != Preamble("mainnet")
  {
    var k := |Bytes(Banner) + Bytes(Package) + Bytes(ConstPrefix)|;
    assert Preamble("mainnet")[k] == Bytes("mainnet")[0] == 'm' as int;
    assert Preamble("testnet3")[k] == Bytes("testnet3")[0] == 't' as int;
  }

  /** The hashes round trip: parsing the document written for a network gives back
      that network and exactly the hash texts, if and only if every hash text has
      the hex length of a hash. */
  lemma {:induction false} ParseHashesDocRoundTrip(testNet: bool, hs: seq<seq<byte>>)
    ensures ParseHashesDoc(HashesDoc(Network(testNet), hs)) == Some((Network(testNet), hs))
      <==> forall i :: 0 <= i < |hs| ==> |hs[i]| == HashTextLen
  {
    var network := Network(testNet);
    var doc := HashesDoc(network, hs);
    var p := Preamble(network);
    assert doc[..|p|] == p;
    assert doc[|doc| - |Closing()|..] == Closing();
    assert doc[|p|..|doc| - |Closing()|] == Concat(hs);
    assert HasFrame(doc, network);
    if testNet {
      PreamblesDiffer();
      assert doc[..|Preamble("mainnet")|] == p[..|Preamble("mainnet")|];
      assert !HasFrame(doc, "mainnet");
    }
    assert ParseHashesDoc(doc) == ParseBody(doc, network);
    if forall i :: 0 <= i < |hs| ==> |hs[i]| == HashTextLen {
      ChunksConcat(hs);
    }
  }
}

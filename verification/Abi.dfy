/** The words of the Solidity contract ABI that the fee payment and the oracle registry read and write:
    32 bytes each, most significant byte first. */
module Abi {
  import opened Wrappers
  import opened Fees

  type Byte = b: nat | b < 256
  type Address20 = a: seq<Byte> | |a| == 20 witness Zeros(20)
  type Hash = h: seq<Byte> | |h| == 32 witness Zeros(32)

  function Zeros(n: nat): (z: seq<Byte>)
    ensures |z| == n && forall i :: 0 <= i < n ==> z[i] == 0
  {
    seq(n, i => 0)
  }

  ghost function Pow256(n: nat): nat {
    if n == 0 then 1 else 256 * Pow256(n - 1)
  }

  function FromBigEndian(s: seq<Byte>): nat {
    if s == [] then 0 else 256 * FromBigEndian(s[..|s| - 1]) + s[|s| - 1]
  }

  function ToBigEndian(n: nat, len: nat): (s: seq<Byte>)
    ensures |s| == len
    decreases len
  {
    if len == 0 then [] else ToBigEndian(n / 256, len - 1) + [n % 256]
  }

  lemma {:induction false} Pow256Add(a: nat, b: nat)
    ensures Pow256(a + b) == Pow256(a) * Pow256(b)
  {
    if a > 0 {
      Pow256Add(a - 1, b);
      Assoc(256, Pow256(a - 1), Pow256(b));
    }
  }

  lemma WordSizes()
    ensures Pow256(8) == U64 && Pow256(32) == U256
  {
    assert Pow256(2) == 0x10000;
    Pow256Add(2, 2);
    Pow256Add(4, 4);
    Pow256Add(8, 8);
    Pow256Add(16, 16);
  }

  lemma {:induction false} BigEndianBelow(s: seq<Byte>)
    ensures FromBigEndian(s) < Pow256(|s|)
  {
    if s != [] {
      BigEndianBelow(s[..|s| - 1]);
    }
  }

  /** The most significant byte comes first: what stands in front weighs a whole power more. */
  lemma {:induction false} FrontWeighsMore(a: seq<Byte>, b: seq<Byte>)
    ensures FromBigEndian(a + b) == FromBigEndian(a) * Pow256(|b|) + FromBigEndian(b)
    decreases b
  {
    if b == [] {
      assert a + b == a;
    } else {
      var k := |b| - 1;
      FrontWeighsMore(a, b[..k]);
      assert (a + b)[..|a + b| - 1] == a + b[..k] && (a + b)[|a + b| - 1] == b[k];
      Assoc(256, FromBigEndian(a), Pow256(k));
      Distribute(256, FromBigEndian(a) * Pow256(k), FromBigEndian(b[..k]));
      Swap(FromBigEndian(a), 256, Pow256(k));
    }
  }

  lemma Swap(a: nat, b: nat, c: nat)
    ensures a * (b * c) == b * (a * c)
  {
  }

  lemma OneByte(x: Byte)
    ensures FromBigEndian([x]) == x
  {
    assert [x][..0] == [];
  }

  /** Writing a number that fits and reading it back. */
  lemma {:induction false} WriteThenRead(n: nat, len: nat)
    requires n < Pow256(len)
    ensures FromBigEndian(ToBigEndian(n, len)) == n
    decreases len
  {
    if len > 0 {
      var s := ToBigEndian(n, len);
      WriteThenRead(n / 256, len - 1);
      assert s[..len - 1] == ToBigEndian(n / 256, len - 1);
    }
  }

  /** Reading a word and writing it back. */
  lemma {:induction false} ReadThenWrite(s: seq<Byte>)
    ensures ToBigEndian(FromBigEndian(s), |s|) == s
  {
    if s != [] {
      var k := |s| - 1;
      ReadThenWrite(s[..k]);
      assert FromBigEndian(s) / 256 == FromBigEndian(s[..k]) && FromBigEndian(s) % 256 == s[k];
      assert s == s[..k] + [s[k]];
    }
  }

  function ReadWord(data: seq<Byte>): (w: Word)
    requires |data| == 32
    ensures w == FromBigEndian(data)
  {
    BigEndianBelow(data);
    WordSizes();
    FromBigEndian(data)
  }

  // ----- ERC-20 calls

  const TRANSFER: seq<Byte> := [0xa9, 0x05, 0x9c, 0xbb]
  const BALANCE_OF: seq<Byte> := [0x70, 0xa0, 0x82, 0x31]

  /** `transfer(address,uint256)`. */
  method EncodeTransfer(to: Address20, amount: Word) returns (calldata: seq<Byte>)
    ensures |calldata| == 68 && calldata[..4] == [0xa9, 0x05, 0x9c, 0xbb] && calldata[4..16] == Zeros(12) && calldata[16..36] == to
    ensures DecodeU256(calldata[36..]) == Some(amount)
  {
    calldata := TRANSFER;
    calldata := calldata + Zeros(12);
    calldata := calldata + to;
    calldata := calldata + ToBigEndian(amount, 32);
    assert calldata == TRANSFER + (Zeros(12) + to) + ToBigEndian(amount, 32);
    assert calldata[36..] == ToBigEndian(amount, 32);
    assert calldata[36..][..32] == ToBigEndian(amount, 32);
    WordSizes();
    WriteThenRead(amount, 32);
  }

  /** `balanceOf(address)`. */
  method EncodeBalanceOf(account: Address20) returns (calldata: seq<Byte>)
    ensures |calldata| == 36 && calldata[..4] == [0x70, 0xa0, 0x82, 0x31] && calldata[4..16] == Zeros(12) && calldata[16..] == account
  {
    calldata := BALANCE_OF;
    calldata := calldata + Zeros(12);
    calldata := calldata + account;
  }

  function DecodeU256(data: seq<Byte>): Option<Word> {
    if |data| < 32 then None else Some(ReadWord(data[..32]))
  }

  /** Whether an ERC-20 call reports success; tokens that return nothing count as successful. */
  predicate CheckBool(data: seq<Byte>) {
    data == [] || (|data| >= 32 && data[31] == 1 && forall i :: 0 <= i < 31 ==> data[i] == 0)
  }

  lemma {:induction false} ZerosRead(s: seq<Byte>)
    ensures FromBigEndian(s) == 0 <==> forall i :: 0 <= i < |s| ==> s[i] == 0
  {
    if s != [] {
      var k := |s| - 1;
      ZerosRead(s[..k]);
      assert s == s[..k] + [s[k]];
    }
  }

  /** For every byte string, the check on single bytes is the check that the returned word is one. */
  lemma CheckBoolIs(data: seq<Byte>)
    ensures CheckBool(data) <==> data == [] || DecodeU256(data) == Some(1)
  {
    if |data| >= 32 {
      var w := data[..32];
      ZerosRead(w[..31]);
      assert w[..|w| - 1] == w[..31] && w[|w| - 1] == data[31];
      assert forall i :: 0 <= i < 31 ==> w[..31][i] == data[i];
    }
  }

  // ----- oracle calls

  /** A four-byte selector followed by one word, written into a fixed buffer. */
  method EncodeCalldata(selector: seq<Byte>, id: Hash) returns (calldata: array<Byte>)
    requires |selector| == 4
    ensures fresh(calldata) && calldata.Length == 36 && calldata[..4] == selector && calldata[4..] == id
  {
    calldata := new Byte[36](i => 0);
    forall i | 0 <= i < 4 { calldata[i] := selector[i]; }
    assert calldata[..4] == selector;
    forall i | 0 <= i < 32 { calldata[4 + i] := id[i]; }
    assert calldata[..4] == selector;
    assert calldata[4..] == id;
  }

  datatype OracleAnswer = OracleAnswer(round: Word, data: Hash, block: nat, time: nat, authorityRound: nat, reserved: nat)

  /** `last_oracle_info`: six words, the last four read as 64-bit numbers. */
  function DecodeOracleInfo(data: seq<Byte>): Option<OracleAnswer> {
    if |data| < 192 then None
    else Some(OracleAnswer(ReadWord(data[0..32]), data[32..64], ReadWord(data[64..96]) % U64, ReadWord(data[96..128]) % U64,
                           ReadWord(data[128..160]) % U64, ReadWord(data[160..192]) % U64))
  }

  datatype RoundAnswer = RoundAnswer(roundId: Word, answer: Word, startedAt: Word, updatedAt: Word, answeredInRound: Word)

  /** `latestRoundData`: five words. */
  function DecodeRoundData(data: seq<Byte>): Option<RoundAnswer> {
    if |data| < 160 then None
    else Some(RoundAnswer(ReadWord(data[0..32]), ReadWord(data[32..64]), ReadWord(data[64..96]), ReadWord(data[96..128]),
                          ReadWord(data[128..160])))
  }

  ghost function Words(ws: seq<Word>): (s: seq<Byte>)
    ensures |s| == 32 * |ws|
  {
    if ws == [] then [] else ToBigEndian(ws[0], 32) + Words(ws[1..])
  }

  /** The bytes of one word, wherever it stands and whatever follows. */
  lemma {:induction false} WordBytes(ws: seq<Word>, tail: seq<Byte>, i: nat)
    requires i < |ws|
    ensures |Words(ws) + tail| >= 32 * i + 32
    ensures (Words(ws) + tail)[32 * i..32 * i + 32] == ToBigEndian(ws[i], 32)
  {
    hide ToBigEndian;
    var head, rest := ToBigEndian(ws[0], 32), Words(ws[1..]) + tail;
    assert Words(ws) + tail == head + rest;
    if i > 0 {
      WordBytes(ws[1..], tail, i - 1);
      var k := 32 * (i - 1);
      assert (head + rest)[32 + k..32 + k + 32] == rest[k..k + 32];
    }
  }

  lemma WordAt(ws: seq<Word>, tail: seq<Byte>, i: nat)
    requires i < |ws|
    ensures |Words(ws) + tail| >= 32 * i + 32
    ensures (Words(ws) + tail)[32 * i..32 * i + 32] == ToBigEndian(ws[i], 32)
    ensures ReadWord((Words(ws) + tail)[32 * i..32 * i + 32]) == ws[i]
  {
    hide ToBigEndian, FromBigEndian, Words;
    WordBytes(ws, tail, i);
    WordSizes();
    WriteThenRead(ws[i], 32);
  }

  /** Every byte string that holds `n` words is the encoding of `n` words and whatever follows. */
  lemma {:induction false} WordsCover(data: seq<Byte>, n: nat) returns (ws: seq<Word>, tail: seq<Byte>)
    requires |data| >= 32 * n
    ensures |ws| == n && data == Words(ws) + tail
    decreases n
  {
    hide ToBigEndian, FromBigEndian;
    if n == 0 {
      ws, tail := [], data;
    } else {
      var rest: seq<Word>;
      rest, tail := WordsCover(data[32..], n - 1);
      ws := [ReadWord(data[..32])] + rest;
      HashRoundTrip(data[..32]);
      assert ws[1..] == rest;
      assert data == data[..32] + data[32..];
    }
  }

  lemma HashRoundTrip(h: Hash)
    ensures ToBigEndian(ReadWord(h), 32) == h
  {
    ReadThenWrite(h);
  }

  /** For every byte string: fewer than six words are refused; of six words the first is a number, the second
      a hash, and of the others the low 64 bits count; whatever follows is ignored. */
  lemma OracleInfoDecodes(data: seq<Byte>) returns (ws: seq<Word>, tail: seq<Byte>)
    ensures |data| < 192 ==> DecodeOracleInfo(data) == None
    ensures |data| >= 192 ==>
      && |ws| == 6 && data == Words(ws) + tail
      && DecodeOracleInfo(data)
         == Some(OracleAnswer(ws[0], ToBigEndian(ws[1], 32), ws[2] % U64, ws[3] % U64, ws[4] % U64, ws[5] % U64))
  {
    hide ToBigEndian, Words, ReadWord;
    ws, tail := [], [];
    if |data| >= 192 {
      ws, tail := WordsCover(data, 6);
      WordAt(ws, tail, 0);
      WordAt(ws, tail, 1);
      WordAt(ws, tail, 2);
      WordAt(ws, tail, 3);
      WordAt(ws, tail, 4);
      WordAt(ws, tail, 5);
    }
  }

  /** For every byte string: fewer than five words are refused; five words are the five numbers, and
      whatever follows is ignored. */
  lemma RoundDataDecodes(data: seq<Byte>) returns (ws: seq<Word>, tail: seq<Byte>)
    ensures |data| < 160 ==> DecodeRoundData(data) == None
    ensures |data| >= 160 ==>
      && |ws| == 5 && data == Words(ws) + tail
      && DecodeRoundData(data) == Some(RoundAnswer(ws[0], ws[1], ws[2], ws[3], ws[4]))
  {
    hide ToBigEndian, Words, ReadWord;
    ws, tail := [], [];
    if |data| >= 160 {
      ws, tail := WordsCover(data, 5);
      WordAt(ws, tail, 0);
      WordAt(ws, tail, 1);
      WordAt(ws, tail, 2);
      WordAt(ws, tail, 3);
      WordAt(ws, tail, 4);
    }
  }

  /** What a contract encodes within the bounds of the fields is what the registry decodes, whatever
      bytes follow. */
  lemma OracleInfoRoundTrip(a: OracleAnswer, tail: seq<Byte>)
    requires a.block < U64 && a.time < U64 && a.authorityRound < U64 && a.reserved < U64
    ensures DecodeOracleInfo(Words([a.round, ReadWord(a.data), a.block, a.time, a.authorityRound, a.reserved]) + tail) == Some(a)
  {
    hide ToBigEndian, Words, ReadWord;
    var ws: seq<Word> := [a.round, ReadWord(a.data), a.block, a.time, a.authorityRound, a.reserved];
    WordAt(ws, tail, 0);
    WordAt(ws, tail, 1);
    WordAt(ws, tail, 2);
    WordAt(ws, tail, 3);
    WordAt(ws, tail, 4);
    WordAt(ws, tail, 5);
    HashRoundTrip(a.data);
  }
}

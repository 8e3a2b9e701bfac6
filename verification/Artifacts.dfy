/** Where one attempt at a job writes its output (core/artifacts.py). */
module Artifacts {
  import opened Basics

  const HEX: string := "0123456789abcdef"

  /** The `width` lowest hexadecimal digits of `n`, most significant first. */
  function Hex(n: nat, width: nat): (s: string)
    ensures |s| == width
  {
    if width == 0 then "" else Hex(n / 16, width - 1) + [HEX[n % 16]]
  }

  function DigitValue(c: char): nat {
    if '0' <= c <= '9' then (c - '0') as nat
    else if 'a' <= c <= 'f' then (c - 'a') as nat + 10
    else 0
  }

  function ParseHex(s: string): nat {
    if s == "" then 0 else 16 * ParseHex(s[..|s| - 1]) + DigitValue(s[|s| - 1])
  }

  /** The canonical 8-4-4-4-12 spelling of a uuid. */
  function UuidText(u: Uuid): (s: string)
    ensures |s| == 36
  {
    var h := Hex(u as int, 32);
    h[..8] + "-" + h[8..12] + "-" + h[12..16] + "-" + h[16..20] + "-" + h[20..]
  }

  function ParseUuid(s: string): nat
    requires |s| == 36
  {
    ParseHex(s[..8] + s[9..13] + s[14..18] + s[19..23] + s[24..])
  }

  function ArtifactKey(job: Uuid, lease: Uuid): string {
    "jobs/" + UuidText(job) + "/" + UuidText(lease)
  }

  lemma DigitRoundTrip(d: nat)
    requires d < 16
    ensures DigitValue(HEX[d]) == d
  {
  }

  lemma {:induction false} HexRoundTrip(n: nat, width: nat)
    requires n < Pow16(width)
    ensures ParseHex(Hex(n, width)) == n
  {
    if width > 0 {
      HexRoundTrip(n / 16, width - 1);
      DigitRoundTrip(n % 16);
      var s := Hex(n, width);
      assert s[..|s| - 1] == Hex(n / 16, width - 1);
    }
  }

  /** Reading a message body back gives the job id that was published. */
  lemma UuidRoundTrip(u: Uuid)
    ensures ParseUuid(UuidText(u)) == u as int
  {
    var h := Hex(u as int, 32);
    var s := UuidText(u);
    assert s[..8] == h[..8] && s[9..13] == h[8..12] && s[14..18] == h[12..16];
    assert s[19..23] == h[16..20] && s[24..] == h[20..];
    assert h[..8] + h[8..12] + h[12..16] + h[16..20] + h[20..] == h;
    HexRoundTrip(u as int, 32);
  }

  /** The job's id stays in front: the keys of one job's attempts are those that begin with its prefix. */
  lemma AttemptsShareAPrefix(job: Uuid, job': Uuid, lease: Uuid)
    ensures "jobs/" + UuidText(job) + "/" <= ArtifactKey(job', lease) <==> job == job'
  {
    var prefix, key := "jobs/" + UuidText(job) + "/", ArtifactKey(job', lease);
    assert key[5..41] == UuidText(job');
    if prefix <= key {
      assert prefix[5..41] == UuidText(job) && key[..42] == prefix;
      assert key[..42][5..41] == key[5..41];
      UuidRoundTrip(job);
      UuidRoundTrip(job');
    }
  }

  /** Two attempts never share a key, whether at one job or at two. */
  lemma ArtifactKeyInjective(job: Uuid, lease: Uuid, job': Uuid, lease': Uuid)
    ensures ArtifactKey(job, lease) == ArtifactKey(job', lease') <==> job == job' && lease == lease'
  {
    if ArtifactKey(job, lease) == ArtifactKey(job', lease') {
      var k, k' := ArtifactKey(job, lease), ArtifactKey(job', lease');
      assert k[5..41] == UuidText(job) && k'[5..41] == UuidText(job');
      assert k[42..] == UuidText(lease) && k'[42..] == UuidText(lease');
      UuidRoundTrip(job);
      UuidRoundTrip(job');
      UuidRoundTrip(lease);
      UuidRoundTrip(lease');
    }
  }
}

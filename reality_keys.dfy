/**
 * The backend's reality key pair handler: it runs `xray x25519` and reads the
 * private key from the "PrivateKey:" line and the public key from the
 * "Password:" line of its output. Running the process is outside the model;
 * its outcome is a parameter.
 */
module RealityKeys {
  import opened Wrappers
  import opened Text

  /** What running `xray x25519` gave: no process at all, or an exit status and its stdout. */
  datatype KeygenOutput =
    | SpawnFailed
    | Exited(success: bool, stdout: string)

  const InternalServerError: nat := 500

  /** The two keys read so far. */
  datatype KeyScan = KeyScan(privateKey: string, publicKey: string)

  const PrivateKeyLabel: string := "PrivateKey:"
  const PublicKeyLabel: string := "Password:"

  /** The second ':'-separated field of a line, trimmed; "" when there is none. */
  function SecondField(line: string): (r: string)
    ensures r != [] ==> !IsRustWhitespace(r[0]) && !IsRustWhitespace(r[|r| - 1])
  {
    TrimRust(SplitNth(line, ":", 1).GetOr(""))
  }

  /** One line: a labelled line replaces the key it names; every other line is ignored. */
  function ReadKeyLine(ks: KeyScan, line: string): (r: KeyScan)
    ensures r.privateKey != ks.privateKey ==> StartsWith(line, PrivateKeyLabel)
    ensures r.publicKey != ks.publicKey ==> StartsWith(line, PublicKeyLabel)
  {
    if StartsWith(line, PrivateKeyLabel) then ks.(privateKey := SecondField(line))
    else if StartsWith(line, PublicKeyLabel) then ks.(publicKey := SecondField(line))
    else ks
  }

  function ReadKeyLines(ks: KeyScan, lines: seq<string>): (r: KeyScan)
    ensures (forall i :: 0 <= i < |lines| ==> !StartsWith(lines[i], PrivateKeyLabel)) ==> r.privateKey == ks.privateKey
    ensures (forall i :: 0 <= i < |lines| ==> !StartsWith(lines[i], PublicKeyLabel)) ==> r.publicKey == ks.publicKey
    decreases |lines|
  {
    if lines == [] then ks else ReadKeyLines(ReadKeyLine(ks, lines[0]), lines[1..])
  }

  /** The handler's answer: both keys, or status 500. */
  function KeysOutcome(out: KeygenOutput): (r: Result<KeyScan, nat>)
    ensures r.Err? ==> r.error == InternalServerError
    ensures r.Ok? ==> r.value.privateKey != [] && r.value.publicKey != []
    ensures !out.Exited? || !out.success ==> r.Err?
  {
    match out
    case SpawnFailed => Err(InternalServerError)
    case Exited(success, stdout) =>
      if !success then Err(InternalServerError)
      else
        var ks := ReadKeyLines(KeyScan("", ""), Lines(stdout));
        if ks.privateKey == [] || ks.publicKey == [] then Err(InternalServerError) else Ok(ks)
  }

  /** The loop body: a labelled line replaces the key it names. */
  method ReadLine(privateKey: string, publicKey: string, line: string) returns (privateKey': string, publicKey': string)
    ensures KeyScan(privateKey', publicKey') == ReadKeyLine(KeyScan(privateKey, publicKey), line)
  {
    privateKey', publicKey' := privateKey, publicKey;
    if StartsWith(line, PrivateKeyLabel) {
      privateKey' := SecondField(line);
    } else if StartsWith(line, PublicKeyLabel) {
      publicKey' := SecondField(line);
    }
  }

  lemma ReadKeyLinesCons(ks: KeyScan, lines: seq<string>, i: nat)
    requires i < |lines|
    ensures ReadKeyLines(ks, lines[i..]) == ReadKeyLines(ReadKeyLine(ks, lines[i]), lines[i + 1..])
  {
    assert lines[i..][1..] == lines[i + 1..];
  }

  /** `generate_reality_keys`: the line loop and the emptiness check. */
  method GenerateRealityKeys(out: KeygenOutput) returns (r: Result<KeyScan, nat>)
    ensures r == KeysOutcome(out)
  {
    if out.SpawnFailed? || !out.success {
      return Err(InternalServerError);
    }
    var lines := Lines(out.stdout);
    var privateKey := "";
    var publicKey := "";
    var i := 0;
    while i < |lines|
      invariant 0 <= i <= |lines|
      invariant ReadKeyLines(KeyScan(privateKey, publicKey), lines[i..]) == ReadKeyLines(KeyScan("", ""), lines)
    {
      ReadKeyLinesCons(KeyScan(privateKey, publicKey), lines, i);
      privateKey, publicKey := ReadLine(privateKey, publicKey, lines[i]);
      i := i + 1;
    }
    assert lines[i..] == [];
    if privateKey == [] || publicKey == [] {
      return Err(InternalServerError);
    }
    return Ok(KeyScan(privateKey, publicKey));
  }

  // ---------------------------------------------------------------- the output format

  /** A key as xray prints it: non-empty, no ':' or line break, no whitespace at either end. */
  predicate PlainKey(k: string) {
    k != [] && ':' !in k && '\n' !in k && !IsRustWhitespace(k[0]) && !IsRustWhitespace(k[|k| - 1])
  }

  function LabelledLine(heading: string, k: string): string { heading + " " + k }

  lemma {:induction false} ReadKeyLinesAppend(ks: KeyScan, a: seq<string>, b: seq<string>)
    ensures ReadKeyLines(ks, a + b) == ReadKeyLines(ReadKeyLines(ks, a), b)
    decreases |a|
  {
    if a == [] {
      assert a + b == b;
    } else {
      assert (a + b)[1..] == a[1..] + b;
      ReadKeyLinesAppend(ReadKeyLine(ks, a[0]), a[1..], b);
    }
  }

  lemma ReadKeyCons(ks: KeyScan, l: string, rest: seq<string>)
    ensures ReadKeyLines(ks, [l] + rest) == ReadKeyLines(ReadKeyLine(ks, l), rest)
  {
    assert ([l] + rest)[1..] == rest;
  }

  /** The field after a heading whose only ':' ends it is the key, whatever the heading. */
  lemma SecondFieldOf(name: string, k: string)
    requires ':' !in name && PlainKey(k)
    ensures SecondField(LabelledLine(name + ":", k)) == k
  {
    var line := LabelledLine(name + ":", k);
    assert line == name + [':'] + (" " + k);
    assert ':' !in " " + k;
    SplitAtChar(name, ':', " " + k);
    TrimPadded(" ", k, IsRustWhitespace);
  }

  lemma PrivateKeyLine(ks: KeyScan, k: string)
    requires PlainKey(k)
    ensures ReadKeyLine(ks, LabelledLine(PrivateKeyLabel, k)) == ks.(privateKey := k)
  {
    PrivateLineShape(k, "PrivateKey");
    SecondFieldOf("PrivateKey", k);
  }

  lemma PrivateLineShape(k: string, name: string)
    requires name == "PrivateKey"
    ensures PrivateKeyLabel == name + ":"
    ensures StartsWith(LabelledLine(PrivateKeyLabel, k), PrivateKeyLabel)
  {
    var line := LabelledLine(PrivateKeyLabel, k);
    assert line[..|PrivateKeyLabel|] == PrivateKeyLabel;
  }

  lemma PublicKeyLine(ks: KeyScan, k: string)
    requires PlainKey(k)
    ensures ReadKeyLine(ks, LabelledLine(PublicKeyLabel, k)) == ks.(publicKey := k)
  {
    PublicLineShape(k);
    SecondFieldOf("Password", k);
  }

  lemma PublicLineShape(k: string)
    ensures PublicKeyLabel == "Password" + ":"
    ensures StartsWith(LabelledLine(PublicKeyLabel, k), PublicKeyLabel)
    ensures !StartsWith(LabelledLine(PublicKeyLabel, k), PrivateKeyLabel)
  {
    var line := LabelledLine(PublicKeyLabel, k);
    assert line[..|PublicKeyLabel|] == PublicKeyLabel;
    assert line[1] == 'a';
    NotPrivateKeyLine(line);
  }

  lemma NotPrivateKeyLine(line: string)
    requires |line| > 1 && line[1] == 'a'
    ensures !StartsWith(line, PrivateKeyLabel)
  {
    if |PrivateKeyLabel| <= |line| {
      assert line[..|PrivateKeyLabel|][1] == line[1];
    }
  }

  /** The printed pair, in xray's order, each key on its own line. */
  function KeygenText(priv: string, pub: string): string {
    JoinLines([LabelledLine(PrivateKeyLabel, priv)] + [LabelledLine(PublicKeyLabel, pub)])
  }

  lemma KeygenLines(priv: string, pub: string)
    requires PlainKey(priv) && PlainKey(pub)
    ensures Lines(KeygenText(priv, pub)) == [LabelledLine(PrivateKeyLabel, priv)] + [LabelledLine(PublicKeyLabel, pub)]
  {
    var a := LabelledLine(PrivateKeyLabel, priv);
    var b := LabelledLine(PublicKeyLabel, pub);
    assert '\n' !in PrivateKeyLabel && '\n' !in PublicKeyLabel;
    assert a[|a| - 1..] == [priv[|priv| - 1]];
    assert b[|b| - 1..] == [pub[|pub| - 1]];
    assert '\n' !in a by {
      assert a == PrivateKeyLabel + " " + priv;
    }
    assert '\n' !in b by {
      assert b == PublicKeyLabel + " " + pub;
    }
    var ls := [a] + [b];
    assert ls[0] == a && ls[1] == b;
    LinesOfJoin(ls);
  }

  /** Reading what `xray x25519` prints gives back both keys. */
  lemma KeysRoundTrip(priv: string, pub: string)
    requires PlainKey(priv) && PlainKey(pub)
    ensures KeysOutcome(Exited(true, KeygenText(priv, pub))) == Ok(KeyScan(priv, pub))
  {
    var a := LabelledLine(PrivateKeyLabel, priv);
    var b := LabelledLine(PublicKeyLabel, pub);
    KeygenLines(priv, pub);
    PrivateKeyLine(KeyScan("", ""), priv);
    PublicKeyLine(KeyScan(priv, ""), pub);
    ReadKeyCons(KeyScan("", ""), a, [b]);
    ReadKeyCons(KeyScan(priv, ""), b, []);
  }

  /** A later labelled line replaces what an earlier one set. */
  lemma LaterKeyWins(ks: KeyScan, k1: string, k2: string, rest: seq<string>)
    requires PlainKey(k1) && PlainKey(k2)
    ensures ReadKeyLines(ks, [LabelledLine(PrivateKeyLabel, k1)] + ([LabelledLine(PrivateKeyLabel, k2)] + rest)) ==
      ReadKeyLines(ks.(privateKey := k2), rest)
  {
    var l1 := LabelledLine(PrivateKeyLabel, k1);
    var l2 := LabelledLine(PrivateKeyLabel, k2);
    PrivateKeyLine(ks, k1);
    PrivateKeyLine(ks.(privateKey := k1), k2);
    ReadKeyCons(ks, l1, [l2] + rest);
    ReadKeyCons(ks.(privateKey := k1), l2, rest);
  }

  /** An indented line is not a labelled line: it changes nothing. */
  lemma IndentedLineIgnored(ks: KeyScan, line: string)
    requires line != [] && line[0] == ' '
    ensures ReadKeyLine(ks, line) == ks
  {
    if |PrivateKeyLabel| <= |line| {
      assert line[..|PrivateKeyLabel|][0] == ' ';
    }
    if |PublicKeyLabel| <= |line| {
      assert line[..|PublicKeyLabel|][0] == ' ';
    }
  }

  /** Output with no public-key line is answered with 500. */
  lemma MissingPublicKeyFails(priv: string)
    requires PlainKey(priv)
    ensures KeysOutcome(Exited(true, JoinLines([LabelledLine(PrivateKeyLabel, priv)]))).Err?
  {
    var a := LabelledLine(PrivateKeyLabel, priv);
    assert a == PrivateKeyLabel + " " + priv;
    assert a[|a| - 1..] == [priv[|priv| - 1]];
    LinesOfJoin([a]);
    PrivateKeyLine(KeyScan("", ""), priv);
    ReadKeyCons(KeyScan("", ""), a, []);
  }
}

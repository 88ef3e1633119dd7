/**
 * The `key=value` strings the strategy hands to the value merge. The merge
 * itself is not part of this model; `Decode` is the model's own reading of the
 * strings as (key, value) pairs, split at the first `=`, so a value may itself
 * contain `=` (as base64 key material does).
 */
module HelmValues {
  import opened Wrappers
  import opened Task

  /** strconv.FormatBool: "true" for true, "false" for false. */
  function FormatBool(b: bool): (r: string)
    ensures r == "true" <==> b
    ensures r == "true" || r == "false"
  {
    if b then "true" else "false"
  }

  /** The boolean spellings FormatBool produces, read back. */
  function ParseBool(s: string): (r: Option<bool>) {
    if s == "true" then Some(true) else if s == "false" then Some(false) else None
  }

  lemma FormatBoolRoundTrip(b: bool)
    ensures ParseBool(FormatBool(b)) == Some(b)
    ensures FormatBool(b) == "true" || FormatBool(b) == "false"
  {
  }

  /** Position of the first `=` in `s`, or |s| when there is none. */
  function IndexOfEq(s: string): (r: nat)
    ensures r <= |s|
    ensures r < |s| ==> s[r] == '='
    ensures forall i :: 0 <= i < r ==> s[i] != '='
  {
    if s == [] then 0 else if s[0] == '=' then 0 else 1 + IndexOfEq(s[1..])
  }

  /** A `key=value` string split at its first `=`; without `=` the whole string is the key. */
  function SplitEntry(s: string): (string, string) {
    var i := IndexOfEq(s);
    if i < |s| then (s[..i], s[i + 1..]) else (s, "")
  }

  predicate PlainKey(k: string) {
    forall i :: 0 <= i < |k| ==> k[i] != '='
  }

  /** Writing `key=value` and splitting it again gives back key and value. */
  lemma EntryRoundTrip(k: string, v: string)
    requires PlainKey(k)
    ensures SplitEntry(k + "=" + v) == (k, v)
  {
    var s := k + "=" + v;
    assert s[|k|] == '=';
    assert s[..|k|] == k;
    assert s[|k| + 1..] == v;
  }

  function Decode(values: seq<string>): (pairs: seq<(string, string)>)
    ensures |pairs| == |values|
    ensures forall i :: 0 <= i < |values| ==> pairs[i] == SplitEntry(values[i])
  {
    seq(|values|, i requires 0 <= i < |values| => SplitEntry(values[i]))
  }

  /** The value list of the source (sshd) release, in the order the merge receives it. */
  function SourceValues(e: Execution, publicKey: string): (r: seq<string>)
    ensures |r| == 7
  {
    var s := e.task.sourceInfo;
    var opts := e.task.migration.options;
    [
      "sshd.enabled=true",
      "sshd.publicKey=" + publicKey,
      "sshd.service.type=LoadBalancer",
      "source.namespace=" + s.claim.namespace,
      "source.pvcName=" + s.claim.name,
      "source.pvcMountReadOnly=" + FormatBool(opts.sourceMountReadOnly),
      "source.path=" + e.task.migration.source.path
    ]
  }

  /** The value list of the destination (rsync) release, in the order the merge receives it. */
  function DestValues(e: Execution, privateKey: string, privateKeyMountPath: string, sshHost: string): (r: seq<string>)
    ensures |r| == 11
  {
    var d := e.task.destInfo;
    var opts := e.task.migration.options;
    [
      "rsync.enabled=true",
      "rsync.deleteExtraneousFiles=" + FormatBool(opts.deleteExtraneousFiles),
      "rsync.noChown=" + FormatBool(opts.noChown),
      "rsync.privateKeyMount=true",
      "rsync.privateKey=" + privateKey,
      "rsync.privateKeyMountPath=" + privateKeyMountPath,
      "rsync.sshRemoteHost=" + sshHost,
      "source.path=" + e.task.migration.source.path,
      "dest.namespace=" + d.claim.namespace,
      "dest.pvcName=" + d.claim.name,
      "dest.path=" + e.task.migration.dest.path
    ]
  }

  /** Reading back a list built entry by entry from plain keys gives the pairs it was built from. */
  lemma {:induction false} DecodeEntries(values: seq<string>, pairs: seq<(string, string)>)
    requires |values| == |pairs|
    requires forall i :: 0 <= i < |pairs| ==> PlainKey(pairs[i].0) && values[i] == pairs[i].0 + "=" + pairs[i].1
    ensures Decode(values) == pairs
  {
    forall i | 0 <= i < |pairs| ensures Decode(values)[i] == pairs[i] {
      EntryRoundTrip(pairs[i].0, pairs[i].1);
    }
  }

  /** None of the source keys contains `=`. */
  lemma SourceKeysPlain()
    ensures PlainKey("sshd.enabled") && PlainKey("sshd.publicKey") && PlainKey("sshd.service.type")
    ensures PlainKey("source.namespace") && PlainKey("source.pvcName") && PlainKey("source.pvcMountReadOnly")
    ensures PlainKey("source.path")
  {
  }

  /** Read as pairs, the source values set exactly these seven keys, in this order. */
  lemma SourceValuesDecode(e: Execution, publicKey: string)
    ensures var s := e.task.sourceInfo;
            Decode(SourceValues(e, publicKey)) == [
              ("sshd.enabled", "true"),
              ("sshd.publicKey", publicKey),
              ("sshd.service.type", "LoadBalancer"),
              ("source.namespace", s.claim.namespace),
              ("source.pvcName", s.claim.name),
              ("source.pvcMountReadOnly", FormatBool(e.task.migration.options.sourceMountReadOnly)),
              ("source.path", e.task.migration.source.path)
            ]
  {
    var s := e.task.sourceInfo;
    var pairs := [
      ("sshd.enabled", "true"),
      ("sshd.publicKey", publicKey),
      ("sshd.service.type", "LoadBalancer"),
      ("source.namespace", s.claim.namespace),
      ("source.pvcName", s.claim.name),
      ("source.pvcMountReadOnly", FormatBool(e.task.migration.options.sourceMountReadOnly)),
      ("source.path", e.task.migration.source.path)
    ];
    var v := SourceValues(e, publicKey);
    SourceKeysPlain();
    assert v[0] == pairs[0].0 + "=" + pairs[0].1;
    assert v[2] == pairs[2].0 + "=" + pairs[2].1;
    DecodeEntries(v, pairs);
  }

  /** None of the destination keys contains `=`. */
  lemma DestKeysPlain()
    ensures PlainKey("rsync.enabled") && PlainKey("rsync.deleteExtraneousFiles") && PlainKey("rsync.noChown")
    ensures PlainKey("rsync.privateKeyMount") && PlainKey("rsync.privateKey") && PlainKey("rsync.privateKeyMountPath")
    ensures PlainKey("rsync.sshRemoteHost") && PlainKey("source.path")
    ensures PlainKey("dest.namespace") && PlainKey("dest.pvcName") && PlainKey("dest.path")
  {
  }

  /** Read as pairs, the destination values set exactly these eleven keys, in this order. */
  lemma DestValuesDecode(e: Execution, privateKey: string, privateKeyMountPath: string, sshHost: string)
    ensures var d := e.task.destInfo; var opts := e.task.migration.options;
            Decode(DestValues(e, privateKey, privateKeyMountPath, sshHost)) == [
              ("rsync.enabled", "true"),
              ("rsync.deleteExtraneousFiles", FormatBool(opts.deleteExtraneousFiles)),
              ("rsync.noChown", FormatBool(opts.noChown)),
              ("rsync.privateKeyMount", "true"),
              ("rsync.privateKey", privateKey),
              ("rsync.privateKeyMountPath", privateKeyMountPath),
              ("rsync.sshRemoteHost", sshHost),
              ("source.path", e.task.migration.source.path),
              ("dest.namespace", d.claim.namespace),
              ("dest.pvcName", d.claim.name),
              ("dest.path", e.task.migration.dest.path)
            ]
  {
    var d := e.task.destInfo;
    var opts := e.task.migration.options;
    var pairs := [
      ("rsync.enabled", "true"),
      ("rsync.deleteExtraneousFiles", FormatBool(opts.deleteExtraneousFiles)),
      ("rsync.noChown", FormatBool(opts.noChown)),
      ("rsync.privateKeyMount", "true"),
      ("rsync.privateKey", privateKey),
      ("rsync.privateKeyMountPath", privateKeyMountPath),
      ("rsync.sshRemoteHost", sshHost),
      ("source.path", e.task.migration.source.path),
      ("dest.namespace", d.claim.namespace),
      ("dest.pvcName", d.claim.name),
      ("dest.path", e.task.migration.dest.path)
    ];
    var v := DestValues(e, privateKey, privateKeyMountPath, sshHost);
    DestKeysPlain();
    assert v[0] == pairs[0].0 + "=" + pairs[0].1;
    assert v[3] == pairs[3].0 + "=" + pairs[3].1;
    DecodeEntries(v, pairs);
  }
}

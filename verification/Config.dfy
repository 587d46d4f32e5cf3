/** The controller's SDK configuration and the hash that detects a stale injection. */
module Config {
  import opened Rules
  import Fnv

  datatype Language = Dotnet | Java | Nodejs | Python | OtherLanguage

  /** `AutoMode` is resolved at boot; unresolved it behaves as the init-container mode. */
  datatype InjectionMode = ImageMode | InitContainerMode | AutoMode

  datatype Resources = Resources(addUIDs: bool, addPodIP: bool, useLabels: bool)

  datatype SDKInject = SDKInject(
    noAutoRestart: bool,
    imageVersion: string,
    imageRoot: string,
    resources: Resources,
    enabledSDKs: seq<Language>,
    mode: InjectionMode,
    debug: bool)
  {
    function ImageVolumePath(): string {
      imageRoot + ":" + imageVersion
    }

    /** A non-empty version published by the matching ConfigMap replaces the default. */
    function WithConfigMapOverrides(cfg: InjectConfig): SDKInject {
      if cfg.imageVersion != "" then this.(imageVersion := cfg.imageVersion) else this
    }
  }

  function Bytes(s: string): (r: seq<Fnv.byte>)
    ensures |r| == |s|
    ensures forall i :: 0 <= i < |s| ==> r[i] == s[i] as int % 256
  {
    seq(|s|, i requires 0 <= i < |s| => s[i] as int % 256)
  }

  /** One FNV-1a fold over the image path, started from the rule configuration's hash, in base 32. */
  function ConfigHash(cfg: SDKInject, digest: Fnv.State): string {
    Fnv.Base32(Fnv.Fold(digest, Bytes(cfg.ImageVolumePath())))
  }

  /** The seed reaches the accumulator through its serialized form, so that form must decode to it. */
  method PodConfigHash(cfg: SDKInject, match': RuleConfig) returns (r: string)
    ensures r == ConfigHash(cfg, match'.digest)
  {
    var accum := new Fnv.Accumulator();
    Fnv.SerializeRoundTrip(match'.digest);
    var ok := accum.UnmarshalBinary(Fnv.Serialize(match'.digest));
    assert ok;
    accum.Write(Bytes(cfg.ImageVolumePath()));
    r := Fnv.Base32(accum.state);
  }

  /** With the image path fixed, the annotation changes exactly when the rule configuration's hash does. */
  lemma StaleExactlyWhenRuleChanged(cfg: SDKInject, d: Fnv.State, e: Fnv.State)
    ensures ConfigHash(cfg, d) == ConfigHash(cfg, e) <==> d == e
  {
    var path := Bytes(cfg.ImageVolumePath());
    if d != e {
      Fnv.FoldIsInjective(d, e, path);
      if ConfigHash(cfg, d) == ConfigHash(cfg, e) {
        Fnv.Base32IsInjective(Fnv.Fold(d, path), Fnv.Fold(e, path));
      }
    }
  }

  /** With the rule configuration fixed, changing one byte of the image path changes the annotation. */
  lemma OneByteOfImagePathMatters(a: SDKInject, b: SDKInject, d: Fnv.State, i: nat)
    requires |a.ImageVolumePath()| == |b.ImageVolumePath()| && i < |a.ImageVolumePath()|
    requires Bytes(a.ImageVolumePath())[i] != Bytes(b.ImageVolumePath())[i]
    requires forall j :: 0 <= j < |a.ImageVolumePath()| && j != i ==> a.ImageVolumePath()[j] == b.ImageVolumePath()[j]
    ensures ConfigHash(a, d) != ConfigHash(b, d)
  {
    var p, q := Bytes(a.ImageVolumePath()), Bytes(b.ImageVolumePath());
    assert p == p[..i] + [p[i]] + p[i + 1..];
    assert q == p[..i] + [q[i]] + p[i + 1..];
    Fnv.OneByteMatters(d, p[..i], p[i], q[i], p[i + 1..]);
    if ConfigHash(a, d) == ConfigHash(b, d) {
      Fnv.Base32IsInjective(Fnv.Fold(d, p), Fnv.Fold(d, q));
    }
  }

  /** When the rule hash is itself an FNV-1a sum, the annotation is the sum of both inputs in sequence. */
  lemma SeedingIsConcatenation(cfg: SDKInject, rule: seq<Fnv.byte>)
    ensures ConfigHash(cfg, Fnv.Fold(Fnv.OFFSET_BASIS, rule))
      == Fnv.Base32(Fnv.Fold(Fnv.OFFSET_BASIS, rule + Bytes(cfg.ImageVolumePath())))
  {
    Fnv.FoldConcat(Fnv.OFFSET_BASIS, rule, Bytes(cfg.ImageVolumePath()));
  }

  // ---- over the configuration's fields

  /** The annotation is the sum over image root, colon and version. */
  lemma HashOfFields(cfg: SDKInject, d: Fnv.State)
    ensures ConfigHash(cfg, d) == Fnv.Base32(Fnv.Fold(d, Bytes(cfg.imageRoot + ":" + cfg.imageVersion)))
  {
  }

  /** Under one image root, versions of one length that differ in one byte get different annotations. */
  lemma OneByteOfVersionMatters(cfg: SDKInject, v: string, w: string, d: Fnv.State, i: nat)
    requires |v| == |w| && i < |v| && v[i] as int % 256 != w[i] as int % 256
    requires forall j :: 0 <= j < |v| && j != i ==> v[j] == w[j]
    ensures ConfigHash(cfg.(imageVersion := v), d) != ConfigHash(cfg.(imageVersion := w), d)
  {
    var a, b, head := cfg.(imageVersion := v), cfg.(imageVersion := w), cfg.imageRoot + ":";
    AfterHead(head, v, w, i);
    assert a.ImageVolumePath() == head + v && b.ImageVolumePath() == head + w;
    OneByteOfImagePathMatters(a, b, d, |head| + i);
  }

  /** Text behind a common head differs where it differs on its own. */
  lemma AfterHead(head: string, v: string, w: string, i: nat)
    requires |v| == |w| && i < |v|
    requires forall j :: 0 <= j < |v| && j != i ==> v[j] == w[j]
    ensures (head + v)[|head| + i] == v[i] && (head + w)[|head| + i] == w[i]
    ensures forall j :: 0 <= j < |head + v| && j != |head| + i ==> (head + v)[j] == (head + w)[j]
  {
    forall j | 0 <= j < |head + v| && j != |head| + i ensures (head + v)[j] == (head + w)[j] {
      if j >= |head| { assert v[j - |head|] == w[j - |head|]; }
    }
  }

  /** Only a non-empty version of the ConfigMap replaces the configured one, and nothing else changes. */
  lemma OverrideIsVersion(cfg: SDKInject, c: InjectConfig)
    ensures cfg.WithConfigMapOverrides(c) == cfg.(imageVersion := if c.imageVersion == "" then cfg.imageVersion else c.imageVersion)
  {
  }
}

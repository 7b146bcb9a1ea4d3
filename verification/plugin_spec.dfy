/**
 * Splitting a plugin spec such as "input_uvc.so -d /dev/video1" into the file
 * name handed to the loader and the parameter string handed to the plugin's
 * init entry point.
 */
module PluginSpec {
  import opened Wrappers

  /** Size of the 64-bit address space; `size_t` arithmetic wraps modulo this. */
  const AddressSpace: nat := 0x1_0000_0000_0000_0000

  /** Offset of the first space in `s`: what `strchr(s, ' ') - s` yields, or None where `strchr` returns NULL. */
  function FirstSpace(s: string): (k: Option<nat>)
    ensures k.None? <==> ' ' !in s
    ensures k.Some? ==> k.value < |s| && s[k.value] == ' ' && ' ' !in s[..k.value]
  {
    if |s| == 0 then None
    else if s[0] == ' ' then Some(0)
    else
      match FirstSpace(s[1..])
      case None =>
        assert s == [s[0]] + s[1..];
        None
      case Some(j) =>
        assert s[..j + 1] == [s[0]] + s[1..][..j];
        Some(j + 1)
  }

  /**
   * The plugin file name: the part of the spec before its first space. When the
   * spec has no space, or starts with one, the whole spec is the name.
   */
  function PluginName(spec: string): (name: string)
    ensures name <= spec
    ensures name == spec <==> ' ' !in spec || spec[0] == ' '
    ensures name != spec ==> 0 < |name| && ' ' !in name && spec[|name|] == ' '
  {
    match FirstSpace(spec)
    case Some(k) => if k > 0 then spec[..k] else spec
    case None => spec
  }

  /** The parameter string: the suffix of the spec from its first space on, space included; None without a space. */
  function ParameterString(spec: string): (p: Option<string>)
    ensures p.None? <==> ' ' !in spec
    ensures p.Some? ==>
              && 0 < |p.value| <= |spec|
              && p.value[0] == ' '
              && p.value == spec[|spec| - |p.value|..]
              && ' ' !in spec[..|spec| - |p.value|]
  {
    match FirstSpace(spec)
    case Some(k) => Some(spec[k..])
    case None => None
  }

  /** `(size_t)(p - q)` for two addresses: the difference wrapped into the unsigned 64-bit range. */
  function SizeDiff(p: nat, q: nat): (d: nat)
    ensures d < AddressSpace
  {
    (p - q) % AddressSpace
  }

  /** `strndup(s, n)`: a copy of at most the first `n` characters of `s`. */
  function Strndup(s: string, n: nat): (r: string)
    ensures r <= s
    ensures |r| == if n < |s| then n else |s|
  {
    if n < |s| then s[..n] else s
  }

  /** The address `strchr(spec, ' ')` returns for a spec stored at address `base`; 0 is NULL. */
  function Strchr(spec: string, base: nat): nat {
    match FirstSpace(spec)
    case Some(k) => base + k
    case None => 0
  }

  /**
   * The plugin name exactly as the host computes it for a spec stored at `base`:
   * `tmp = (size_t)(strchr(spec, ' ') - spec)`, then `strndup(spec, tmp)` when
   * `tmp > 0` and `strdup(spec)` otherwise. Without a space this subtracts the
   * spec's address from NULL, which C leaves undefined; the model takes the
   * wrapped 64-bit difference, which is what the host observes in practice.
   * The spec and its terminating NUL lie in the address space above NULL.
   */
  function NameAsWritten(spec: string, base: nat): string
    requires 0 < base && base + |spec| < AddressSpace
  {
    var tmp := SizeDiff(Strchr(spec, base), base);
    if tmp > 0 then Strndup(spec, tmp) else spec
  }

  /** Whatever address the spec lives at, the host's pointer arithmetic yields the plugin name. */
  lemma {:induction false} NameAsWrittenIsPluginName(spec: string, base: nat)
    requires 0 < base && base + |spec| < AddressSpace
    ensures NameAsWritten(spec, base) == PluginName(spec)
  {
    match FirstSpace(spec)
    case Some(k) =>
      assert SizeDiff(base + k, base) == k;
    case None =>
      assert SizeDiff(0, base) == AddressSpace - base;
  }

  /** A spec that does not start with a space is its name followed by its parameter string. */
  lemma {:induction false} SplitRoundTrip(spec: string)
    requires spec == [] || spec[0] != ' '
    ensures PluginName(spec) + ParameterString(spec).GetOr([]) == spec
  {
    match FirstSpace(spec)
    case Some(k) =>
      assert spec == spec[..k] + spec[k..];
    case None =>
  }

  /** Joining a space-free name and a parameter string that starts with a space splits back into the two. */
  lemma {:induction false} JoinSplit(name: string, params: Option<string>)
    requires 0 < |name| && ' ' !in name
    requires params.Some? ==> 0 < |params.value| && params.value[0] == ' '
    ensures PluginName(name + params.GetOr([])) == name
    ensures ParameterString(name + params.GetOr([])) == params
  {
    var spec := name + params.GetOr([]);
    match params
    case None =>
      assert spec == name;
    case Some(p) =>
      assert spec[|name|] == ' ';
      assert ' ' in spec;
      var k := FirstSpace(spec).value;
      assert spec[..k] == name;
      assert spec[k..] == p;
  }

  /** A spec that starts with a space is passed whole both as the file name and as the parameter string. */
  lemma {:induction false} LeadingSpaceKeepsWholeSpec(spec: string)
    requires 0 < |spec| && spec[0] == ' '
    ensures PluginName(spec) == spec
    ensures ParameterString(spec) == Some(spec)
  {
    assert FirstSpace(spec) == Some(0);
  }
}

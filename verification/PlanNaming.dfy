/** Generated destination names, and why regenerating one from an already swapped disk gives the same name. */
module PlanNaming {
  import opened Basics

  /** The longest label of section 2.3.4 of RFC 1035. */
  const LABEL_MAX := 63

  type Namer = (string, string) -> string

  predicate EndsWith(s: string, suffix: string) {
    |suffix| <= |s| && s[|s| - |suffix|..] == suffix
  }

  /** naming.GetName, by contract: base-suffix when it fits, otherwise some name within the limit ending in -suffix. */
  ghost predicate NamingContract(getName: Namer) {
    forall base, suffix ::
      var full := base + "-" + suffix;
      if |full| <= LABEL_MAX then getName(base, suffix) == full
      else |suffix| + 10 <= LABEL_MAX ==> |getName(base, suffix)| <= LABEL_MAX && EndsWith(getName(base, suffix), "-" + suffix)
  }

  /** One character of the class used by the suffix pattern. */
  predicate SuffixChar(c: char) {
    '0' <= c <= '9' || 'a' <= c <= 'z' || 'A' <= c <= 'Z' || c == '|'
  }

  predicate ValidSuffix(s: string) {
    |s| == 4 && forall i :: 0 <= i < 4 ==> SuffixChar(s[i])
  }

  /** The pattern (.*)-mig-XXXX anchored at the end. */
  predicate HasMigSuffix(name: string) {
    |name| >= 9 && name[|name| - 9..|name| - 4] == "-mig-" && ValidSuffix(name[|name| - 4..])
  }

  function TrimEnd(s: string, suffix: string): string {
    if EndsWith(s, suffix) then s[..|s| - |suffix|] else s
  }

  function TrimSuffix(name: string): string {
    TrimEnd(name, if HasMigSuffix(name) then "-mig-" + name[|name| - 4..] else "-new")
  }

  function TargetPVCName(getName: Namer, name: Option<string>, source: string, suffix: Option<string>): Result<string> {
    if name.Some? then Ok(name.value)
    else if suffix.Some? then Ok(getName(TrimSuffix(source), "mig-" + suffix.value))
    else Err
  }

  lemma MigSuffixShape(name: string, suffix: string)
    requires ValidSuffix(suffix) && EndsWith(name, "-mig-" + suffix)
    ensures HasMigSuffix(name) && TrimSuffix(name) + ("-mig-" + suffix) == name
  {
    var tail := "-mig-" + suffix;
    var cut := |name| - 9;
    assert name[cut..] == tail;
    assert name[cut..cut + 5] == tail[..5] == "-mig-";
    assert name[cut + 5..] == tail[5..] == suffix;
    assert name == name[..cut] + tail;
  }

  lemma GeneratedNameShape(getName: Namer, source: string, suffix: string)
    requires NamingContract(getName) && ValidSuffix(suffix)
    ensures
      var name := getName(TrimSuffix(source), "mig-" + suffix);
      |name| <= LABEL_MAX && EndsWith(name, "-mig-" + suffix)
  {
    var base := TrimSuffix(source);
    var tail := "mig-" + suffix;
    assert "-" + tail == "-mig-" + suffix;
    assert base + "-" + tail == base + ("-mig-" + suffix);
    assert EndsWith(base + ("-mig-" + suffix), "-mig-" + suffix);
  }

  /** Generation is a fixpoint of itself: a disk already named by this plan keeps its name. */
  lemma GeneratedNameIsFixpoint(getName: Namer, source: string, suffix: string)
    requires NamingContract(getName) && ValidSuffix(suffix)
    ensures
      var name := TargetPVCName(getName, None, source, Some(suffix)).value;
      TargetPVCName(getName, None, name, Some(suffix)) == Ok(name)
  {
    var name := TargetPVCName(getName, None, source, Some(suffix)).value;
    GeneratedNameShape(getName, source, suffix);
    MigSuffixShape(name, suffix);
    assert TrimSuffix(name) + "-" + ("mig-" + suffix) == TrimSuffix(name) + ("-mig-" + suffix);
  }

  /** A name that ends neither way is kept whole, and the plan's suffix is appended. */
  lemma PlainNameIsExtended(getName: Namer, base: string, suffix: string)
    requires NamingContract(getName) && ValidSuffix(suffix) && |base| + 9 <= LABEL_MAX
    requires !EndsWith(base, "-new") && forall s :: ValidSuffix(s) ==> !EndsWith(base, "-mig-" + s)
    ensures TargetPVCName(getName, None, base, Some(suffix)) == Ok(base + "-mig-" + suffix)
  {
    if HasMigSuffix(base) {
      var s := base[|base| - 4..];
      assert base[|base| - 9..] == "-mig-" + s;
      assert EndsWith(base, "-mig-" + s);
    }
    assert base + "-" + ("mig-" + suffix) == base + "-mig-" + suffix;
  }

  /** The other suffix in use before, "-new", is replaced as well. */
  lemma NewSuffixIsReplaced(getName: Namer, base: string, suffix: string)
    requires NamingContract(getName) && ValidSuffix(suffix) && |base| + 9 <= LABEL_MAX
    ensures TargetPVCName(getName, None, base + "-new", Some(suffix)) == Ok(base + "-mig-" + suffix)
  {
    var name := base + "-new";
    assert name[|name| - 4..] == "-new" && name[..|name| - 4] == base;
    assert !SuffixChar("-new"[0]);
    assert base + "-" + ("mig-" + suffix) == base + "-mig-" + suffix;
  }

  /** A destination named in the spec is taken as it is; without one and without a suffix there is no name. */
  lemma NamedOrRefused(getName: Namer, name: Option<string>, source: string, suffix: Option<string>)
    ensures name.Some? ==> TargetPVCName(getName, name, source, suffix) == Ok(name.value)
    ensures TargetPVCName(getName, name, source, suffix).Err? <==> name.None? && suffix.None?
  {
  }

  /** A disk left by an earlier plan is renamed, not stacked: its old suffix is replaced. */
  lemma OldSuffixIsReplaced(getName: Namer, base: string, old_: string, suffix: string)
    requires NamingContract(getName) && ValidSuffix(old_) && ValidSuffix(suffix) && |base| + 9 <= LABEL_MAX
    ensures TargetPVCName(getName, None, base + "-mig-" + old_, Some(suffix)) == Ok(base + "-mig-" + suffix)
  {
    var name := base + "-mig-" + old_;
    assert name[|name| - 9..|name| - 4] == "-mig-" && name[|name| - 4..] == old_;
    assert TrimSuffix(name) == base;
    assert base + "-" + ("mig-" + suffix) == base + "-mig-" + suffix;
  }
}

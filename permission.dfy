/**
 * The permission-mode menu: three items whose label text carries a check mark
 * for the selected mode (claude-panel@claude-code/applet.js, `_updateCheckmarks`).
 */
module Permission {
  import opened Wrappers

  /** The modes the settings menu offers. */
  datatype Mode = Normal | Sudo | Dangerous {

    /** The name stored in the config record and in the applet's mode field. */
    function Name(): (r: string)
    {
      match this
      case Normal => "normal"
      case Sudo => "sudo"
      case Dangerous => "dangerous"
    }

    /** The item's caption, without its two-character marker. */
    function Caption(): (r: string)
    {
      match this
      case Normal => "Normal (Ask Permission)"
      case Sudo => "Sudo (System Level)"
      case Dangerous => "Dangerous (No Prompts)"
    }
  }

  /** The label texts of the three menu items. */
  datatype Labels = Labels(normal: string, sudo: string, dangerous: string) {

    function Of(k: Mode): (r: string)
    {
      match k
      case Normal => normal
      case Sudo => sudo
      case Dangerous => dangerous
    }
  }

  const CheckPrefix: string := "✓ "
  const BlankPrefix: string := "  "

  /** The texts the items are created with, before any check mark is applied. */
  const InitialLabels: Labels := Labels(Normal.Caption(), Sudo.Caption(), Dangerous.Caption())

  predicate StartsWith(s: string, p: string)
  {
    |p| <= |s| && s[..|p|] == p
  }

  /** The mode a stored name denotes, if any; names are compared exactly (`===`). */
  function ModeNamed(s: string): (r: Option<Mode>)
    ensures r.Some? ==> r.value.Name() == s
    ensures r.None? ==> forall m: Mode :: m.Name() != s
  {
    if s == "normal" then Some(Normal)
    else if s == "sudo" then Some(Sudo)
    else if s == "dangerous" then Some(Dangerous)
    else None
  }

  /** The label of item `k` when `m` is the selected mode. */
  function Marked(m: Mode, k: Mode): (r: string)
  {
    (if k == m then CheckPrefix else BlankPrefix) + k.Caption()
  }

  /**
   * The labels after `_updateCheckmarks` with the applet's mode `mode`: for one of the three
   * names, the selected item reads "✓ " + caption and the others "  " + caption; for any other
   * string no branch matches and the labels are left as they were.
   */
  function UpdateCheckmarks(mode: string, current: Labels): (r: Labels)
    ensures forall m: Mode :: mode == m.Name() ==> forall k: Mode :: r.Of(k) == Marked(m, k)
    ensures (forall m: Mode :: mode != m.Name()) ==> r == current
  {
    match ModeNamed(mode)
    case Some(m) => Labels(Marked(m, Normal), Marked(m, Sudo), Marked(m, Dangerous))
    case None => current
  }

  /** For a selected mode, exactly the matching item carries the check mark; the other two start with two spaces. */
  lemma ExactlyOneChecked(m: Mode, current: Labels)
    ensures forall k: Mode :: StartsWith(UpdateCheckmarks(m.Name(), current).Of(k), CheckPrefix) <==> k == m
    ensures forall k: Mode :: k != m ==> StartsWith(UpdateCheckmarks(m.Name(), current).Of(k), BlankPrefix)
  {
  }

  /** The labels do not depend on what they showed before, as long as the mode is one of the three. */
  lemma CheckmarksForget(m: Mode, a: Labels, b: Labels)
    ensures UpdateCheckmarks(m.Name(), a) == UpdateCheckmarks(m.Name(), b)
  {
  }
}

/** The `Tab` enum of the tab bar: its cases in declaration order, the SF
    Symbol each shows, and its position among `allCases`. */
module TabModel {

  datatype Option<T> = None | Some(value: T)

  datatype Tab = Home | Saved | Feedback | Settings

  /** `Tab.allCases`: the cases in declaration order. */
  const AllCases: seq<Tab> := [Home, Saved, Feedback, Settings]

  /** The `String` raw value of each case. */
  function RawValue(t: Tab): string {
    match t
    case Home => "Home"
    case Saved => "Saved"
    case Feedback => "Feedback"
    case Settings => "Settings"
  }

  /** `systemImage`: the SF Symbol name shown for the tab. */
  function SystemImage(t: Tab): string {
    match t
    case Home => "house"
    case Saved => "square.and.arrow.down"
    case Feedback => "person.wave.2.fill"
    case Settings => "gearshape"
  }

  /** `firstIndex(of:)`: the position of the first occurrence of `t` in `s`,
      or nothing when `t` does not occur. */
  function FirstIndex(s: seq<Tab>, t: Tab): (r: Option<nat>)
    ensures r.Some? <==> t in s
    ensures r.Some? ==> r.value < |s| && s[r.value] == t && t !in s[..r.value]
  {
    if s == [] then None
    else if s[0] == t then Some(0)
    else match FirstIndex(s[1..], t)
      case None => None
      case Some(i) => Some(i + 1)
  }

  /** `index`: the tab's position among `allCases`, falling back to 0 when it
      is not found. The fallback is never taken: every case is listed, so the
      index is in range and names the tab itself. */
  function Index(t: Tab): (r: int)
    ensures 0 <= r < |AllCases| && AllCases[r] == t
    ensures FirstIndex(AllCases, t) == Some(r)
  {
    match FirstIndex(AllCases, t)
    case Some(i) => i
    case None => 0
  }

  /** The index is the declaration position. */
  lemma IndexIsDeclarationOrder()
    ensures Index(Home) == 0 && Index(Saved) == 1 && Index(Feedback) == 2 && Index(Settings) == 3
  {
  }

  /** Distinct tabs have distinct indices. */
  lemma IndexInjective(a: Tab, b: Tab)
    ensures Index(a) == Index(b) ==> a == b
  {
  }

  /** Distinct tabs have distinct raw values and distinct symbols. */
  lemma CasesDistinct(a: Tab, b: Tab)
    requires a != b
    ensures RawValue(a) != RawValue(b)
    ensures SystemImage(a) != SystemImage(b)
  {
  }
}

/**
  The Monitor page's status presenters (src/pages/Monitor.tsx:123-140):
  ordered substring tests on the protocol status string.
 */
module StatusPresenter {

  /** t occurs in s starting at index i. */
  predicate OccursAt(s: string, t: string, i: int) {
    0 <= i && i + |t| <= |s| && s[i..i + |t|] == t
  }

  /** JavaScript's `s.includes(t)`: t occurs in s at some index. */
  predicate Contains(s: string, t: string) {
    exists i :: 0 <= i <= |s| - |t| && OccursAt(s, t, i)
  }

  /** The badge colours of getStatusColor: bg-success, bg-destructive, bg-muted, bg-warning. */
  datatype Color = Success | Destructive | Muted | Warning

  /** The icons of getStatusIcon: CheckCircle2, AlertCircle, WifiOff, and the spinning Loader2. */
  datatype Icon = CheckCircle | AlertCircle | WifiOff | Spinner

  /** The CSS class of a colour. */
  function ColorClass(c: Color): string {
    match c
    case Success => "bg-success"
    case Destructive => "bg-destructive"
    case Muted => "bg-muted"
    case Warning => "bg-warning"
  }

  /** The first test of both presenters. */
  predicate LooksPassed(status: string) {
    Contains(status, "PASS") || Contains(status, "VERIFIED")
  }

  /** The second test of both presenters. */
  predicate LooksFailed(status: string) {
    Contains(status, "FAIL") || Contains(status, "FATAL")
  }

  /** getStatusColor (src/pages/Monitor.tsx:128-133). */
  function StatusColor(status: string): (r: Color)
    ensures r == Success <==> LooksPassed(status)
    ensures r == Destructive <==> !LooksPassed(status) && LooksFailed(status)
    ensures r == Muted <==> !LooksPassed(status) && !LooksFailed(status) && status == "DISCONNECTED"
  {
    if LooksPassed(status) then Success
    else if LooksFailed(status) then Destructive
    else if status == "DISCONNECTED" then Muted
    else Warning
  }

  /** getStatusIcon (src/pages/Monitor.tsx:135-140). */
  function StatusIcon(status: string): Icon {
    if LooksPassed(status) then CheckCircle
    else if LooksFailed(status) then AlertCircle
    else if status == "DISCONNECTED" then WifiOff
    else Spinner
  }

  /** The icon that goes with each colour. */
  function IconOf(c: Color): Icon {
    match c
    case Success => CheckCircle
    case Destructive => AlertCircle
    case Muted => WifiOff
    case Warning => Spinner
  }

  /** The two presenters take the same branch: the icon is always the colour's icon. */
  lemma IconFollowsColor(status: string)
    ensures StatusIcon(status) == IconOf(StatusColor(status))
  {
  }

  /** isSessionTerminated (src/pages/Monitor.tsx:123-126). */
  predicate IsSessionTerminated(status: string) {
    Contains(status, "PASS") || Contains(status, "FAIL") || Contains(status, "QUIT")
  }

  /** Anything containing FAIL is both terminated and shown as a failure, unless it also reads as a pass. */
  lemma FailureTerminates(status: string)
    requires Contains(status, "FAIL") && !LooksPassed(status)
    ensures IsSessionTerminated(status) && StatusColor(status) == Destructive
  {
  }

  /** A terminated status is never shown as disconnected. */
  lemma TerminatedNotMuted(status: string)
    requires IsSessionTerminated(status)
    ensures StatusColor(status) != Muted
  {
    if status == "DISCONNECTED" {
      Absent(status, "PASS", 0);
      Absent(status, "FAIL", 0);
      Absent(status, "QUIT", 0);
    }
  }

  /** t does not occur in s when its k-th letter is missing from every place that letter could take. */
  lemma AbsentWithin(s: string, t: string, k: nat)
    requires k < |t|
    requires |t| <= |s| ==> t[k] !in s[..|s| - |t| + k + 1]
    ensures !Contains(s, t)
  {
    forall i
      ensures !OccursAt(s, t, i)
    {
      if 0 <= i && i + |t| <= |s| {
        assert s[i..i + |t|][k] == s[..|s| - |t| + k + 1][i + k];
      }
    }
  }

  /** t does not occur in s when one of its letters is missing from s. */
  lemma Absent(s: string, t: string, k: nat)
    requires k < |t| && t[k] !in s
    ensures !Contains(s, t)
  {
    forall i
      ensures !OccursAt(s, t, i)
    {
      if 0 <= i && i + |t| <= |s| {
        assert s[i..i + |t|][k] == s[i + k];
      }
    }
  }

  /** "VERIFIED" alone reads as a pass but does not terminate the session. */
  lemma VerifiedAloneNotTerminated(status: string)
    requires status == "VERIFIED"
    ensures StatusColor(status) == Success
    ensures !IsSessionTerminated(status)
  {
    assert OccursAt(status, "VERIFIED", 0);
    Absent(status, "PASS", 0);
    Absent(status, "FAIL", 1);
    Absent(status, "QUIT", 0);
  }

  /** An occurrence at a known index makes Contains hold. */
  lemma Present(s: string, t: string, i: int)
    requires OccursAt(s, t, i)
    ensures Contains(s, t)
  {
  }
}

/**
  The names the controller derives from a StatefulSet, a volume and a replica
  (pvc.go, statefulset.go, migrator.go). The rest of the model keys claims and
  pods by structured keys; this module shows that the printed names keep
  structured keys apart.
 */
module Names {

  function Decimal(n: nat): (s: string)
    ensures |s| > 0
    ensures forall i :: 0 <= i < |s| ==> '0' <= s[i] <= '9'
  {
    if n < 10 then [(n as char) + '0'] else Decimal(n / 10) + [((n % 10) as char) + '0']
  }

  function OriginalPVCName(volume: string, sts: string, replica: nat): string {
    volume + "-" + sts + "-" + Decimal(replica)
  }

  function TempPVCName(volume: string, sts: string, replica: nat): string {
    volume + "-" + sts + "-" + Decimal(replica) + "-new"
  }

  function PodName(sts: string, replica: nat): string {
    sts + "-" + Decimal(replica)
  }

  function MigratorPodName(vr: string, volume: string, replica: nat): string {
    vr + "-migrator-" + Decimal(replica) + "-" + volume
  }

  function BackupName(vr: string): string {
    vr + "-sts-backup"
  }

  // The decimal printing determines the number.
  lemma {:induction false} DecimalInjective(a: nat, b: nat)
    requires Decimal(a) == Decimal(b)
    ensures a == b
  {
    var n := |Decimal(a)|;
    assert n == 1 <==> a < 10;
    assert n == 1 <==> b < 10;
    assert Decimal(a)[n - 1] == Decimal(b)[n - 1];
    if n > 1 {
      assert Decimal(a)[..n - 1] == Decimal(a / 10) && Decimal(b)[..n - 1] == Decimal(b / 10);
      DecimalInjective(a / 10, b / 10);
    }
  }

  predicate Digit(c: char) { '0' <= c <= '9' }

  function DigitValue(c: char): nat
    requires Digit(c)
  {
    c as int - '0' as int
  }

  // The number a string of digits stands for, read from its first digit.
  function Number(digits: string): nat
    requires forall i :: 0 <= i < |digits| ==> Digit(digits[i])
  {
    if digits == "" then 0
    else
      var n := |digits| - 1;
      10 * Number(digits[..n]) + DigitValue(digits[n])
  }

  // The decimal printing is the number's only string of digits without a leading zero.
  lemma {:induction false} DecimalIsNumber(n: nat)
    ensures Number(Decimal(n)) == n && (n > 0 ==> Decimal(n)[0] != '0')
  {
    if n >= 10 {
      DecimalIsNumber(n / 10);
      assert Decimal(n)[..|Decimal(n)| - 1] == Decimal(n / 10);
    } else {
      assert Decimal(n)[..0] == "";
    }
  }

  lemma {:induction false} NumberIsDecimal(digits: string)
    requires digits != "" && forall i :: 0 <= i < |digits| ==> Digit(digits[i])
    requires |digits| > 1 ==> digits[0] != '0'
    ensures Decimal(Number(digits)) == digits
  {
    var n := |digits| - 1;
    if n > 0 {
      NumberIsDecimal(digits[..n]);
      NumberPositive(digits[..n]);
    } else {
      assert digits[..n] == "";
    }
    assert digits == digits[..n] + [digits[n]];
  }

  lemma {:induction false} NumberPositive(digits: string)
    requires digits != "" && digits[0] != '0' && forall i :: 0 <= i < |digits| ==> Digit(digits[i])
    ensures Number(digits) > 0
  {
    if |digits| > 1 {
      NumberPositive(digits[..|digits| - 1]);
    }
  }

  // A claim's name is that of its volume and of the pod it belongs to, as a StatefulSet
  // names its claims; the temporary one adds a suffix.
  lemma ClaimNamesPod(v: string, sts: string, r: nat)
    ensures OriginalPVCName(v, sts, r) == v + "-" + PodName(sts, r)
    ensures TempPVCName(v, sts, r) == v + "-" + PodName(sts, r) + "-new"
    ensures sts + "-" <= PodName(sts, r) && Number(PodName(sts, r)[|sts| + 1..]) == r
  {
    DecimalIsNumber(r);
    assert PodName(sts, r)[|sts| + 1..] == Decimal(r);
    assert OriginalPVCName(v, sts, r) == v + "-" + PodName(sts, r);
  }

  // The last hyphen of a name is the one before a hyphen-free suffix.
  lemma SplitLast(p: string, a: string, q: string, b: string)
    requires p + "-" + a == q + "-" + b
    requires '-' !in a && '-' !in b
    ensures p == q && a == b
  {
    var s, t := p + "-" + a, q + "-" + b;
    assert s[|p|] == '-' && forall i :: |p| < i < |s| ==> s[i] == a[i - |p| - 1];
    assert t[|q|] == '-' && forall i :: |q| < i < |t| ==> t[i] == b[i - |q| - 1];
    assert |p| == |q|;
    assert p == s[..|p|] && q == t[..|q|];
    assert a == s[|p| + 1..] && b == t[|q| + 1..];
  }

  // The first hyphen of a name is the one after a hyphen-free prefix.
  lemma SplitFirst(a: string, p: string, b: string, q: string)
    requires a + "-" + p == b + "-" + q
    requires '-' !in a && '-' !in b
    ensures a == b && p == q
  {
    var s, t := a + "-" + p, b + "-" + q;
    assert s[|a|] == '-' && forall i :: 0 <= i < |a| ==> s[i] == a[i];
    assert t[|b|] == '-' && forall i :: 0 <= i < |b| ==> t[i] == b[i];
    assert |a| == |b|;
    assert a == s[..|a|] && b == t[..|b|];
    assert p == s[|a| + 1..] && q == t[|b| + 1..];
  }

  // Original claim names tell (volume, replica) apart, for any volume and StatefulSet names.
  lemma OriginalNameInjective(sts: string, v: string, r: nat, v': string, r': nat)
    requires OriginalPVCName(v, sts, r) == OriginalPVCName(v', sts, r')
    ensures v == v' && r == r'
  {
    SplitLast(v + "-" + sts, Decimal(r), v' + "-" + sts, Decimal(r'));
    DecimalInjective(r, r');
    assert v == (v + "-" + sts)[..|v|] && v' == (v' + "-" + sts)[..|v'|];
  }

  // Temporary claim names tell (volume, replica) apart.
  lemma TempNameInjective(sts: string, v: string, r: nat, v': string, r': nat)
    requires TempPVCName(v, sts, r) == TempPVCName(v', sts, r')
    ensures v == v' && r == r'
  {
    SplitLast(OriginalPVCName(v, sts, r), "new", OriginalPVCName(v', sts, r'), "new") by {
      assert TempPVCName(v, sts, r) == OriginalPVCName(v, sts, r) + "-" + "new";
      assert TempPVCName(v', sts, r') == OriginalPVCName(v', sts, r') + "-" + "new";
    }
    OriginalNameInjective(sts, v, r, v', r');
  }

  // No temporary claim name is an original claim name.
  lemma OriginalTempDisjoint(sts: string, v: string, r: nat, v': string, r': nat)
    ensures OriginalPVCName(v, sts, r) != TempPVCName(v', sts, r')
  {
    var s, t := OriginalPVCName(v, sts, r), TempPVCName(v', sts, r');
    var d := Decimal(r);
    assert s[|s| - 1] == d[|d| - 1];
    assert t[|t| - 1] == 'w';
  }

  // Migrator pod names of one VolumeResize tell (volume, replica) apart.
  lemma MigratorNameInjective(vr: string, v: string, r: nat, v': string, r': nat)
    requires MigratorPodName(vr, v, r) == MigratorPodName(vr, v', r')
    ensures v == v' && r == r'
  {
    var prefix := vr + "-migrator-";
    var s, t := Decimal(r) + "-" + v, Decimal(r') + "-" + v';
    assert MigratorPodName(vr, v, r) == prefix + s && MigratorPodName(vr, v', r') == prefix + t;
    assert s == (prefix + s)[|prefix|..] && t == (prefix + t)[|prefix|..];
    SplitFirst(Decimal(r), v, Decimal(r'), v');
    DecimalInjective(r, r');
  }

  // The decimal printing has no hyphen.
  lemma DecimalPlain(n: nat)
    ensures '-' !in Decimal(n)
  {
  }

  // A migrator pod shares its name with an application pod exactly if the
  // StatefulSet is called like the migrator up to a hyphen, and what follows that
  // hyphen in the volume name is the number of the pod.
  lemma MigratorAppCollision(vr: string, sts: string, v: string, r: nat, r': nat)
    ensures MigratorPodName(vr, v, r) == PodName(sts, r') <==>
              || (sts == vr + "-migrator-" + Decimal(r) && v == Decimal(r'))
              || exists head: string ::
                   sts == vr + "-migrator-" + Decimal(r) + "-" + head && v == head + "-" + Decimal(r')
  {
    var stem := vr + "-migrator-" + Decimal(r);
    DecimalPlain(r');
    if MigratorPodName(vr, v, r) == PodName(sts, r') {
      if '-' in v {
        var head, tail := LastSegment(v);
        assert MigratorPodName(vr, v, r) == (stem + "-" + head) + "-" + tail;
        SplitLast(stem + "-" + head, tail, sts, Decimal(r'));
      } else {
        SplitLast(stem, v, sts, Decimal(r'));
      }
    }
    forall head: string | sts == stem + "-" + head && v == head + "-" + Decimal(r')
      ensures MigratorPodName(vr, v, r) == PodName(sts, r')
    {
      assert MigratorPodName(vr, v, r) == (stem + "-" + head) + "-" + Decimal(r');
    }
  }

  // A name with a hyphen, cut at the last one.
  lemma {:induction false} LastSegment(s: string) returns (head: string, tail: string)
    requires '-' in s
    ensures s == head + "-" + tail && '-' !in tail
  {
    var n := |s| - 1;
    if s[n] == '-' {
      head, tail := s[..n], "";
    } else {
      assert s == s[..n] + [s[n]];
      head, tail := LastSegment(s[..n]);
      tail := tail + [s[n]];
    }
  }

  // What a user can check: a StatefulSet whose name does not start with the
  // migrators' prefix never collides.
  lemma NoCollision(vr: string, sts: string, v: string, r: nat, r': nat)
    requires !(vr + "-migrator-" <= sts)
    ensures MigratorPodName(vr, v, r) != PodName(sts, r')
  {
    var prefix := vr + "-migrator-";
    MigratorAppCollision(vr, sts, v, r, r');
    assert prefix <= prefix + Decimal(r);
    forall head: string
      ensures sts != prefix + Decimal(r) + "-" + head
    {
      assert prefix <= prefix + Decimal(r) + "-" + head;
    }
  }

  // Such a collision exists: a StatefulSet called x-migrator-0 and a volume called 7.
  lemma MigratorAppCollisionExample()
    ensures MigratorPodName("x", "7", 0) == PodName("x-migrator-0", 7)
  {
    assert Decimal(0) == "0" && Decimal(7) == "7";
  }
}

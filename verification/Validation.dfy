/** Admission checks on a submitted EtcdCluster (pkg/validation/validation.go), and what they do and do not guarantee to
    the reconciler. Parsing and ordering versions is left to functions that the caller supplies. */
module Validation {
  import opened Text
  import opened Cluster
  import opened Protocol
  import opened ProtocolSafety
  import opened MemberStatus
  import opened StatusTheorems

  /** The parts of an EtcdCluster object that admission looks at. */
  datatype Submission = Submission(spec: EtcdCluster, version: string, volume: string, members: seq<EtcdMember>)

  datatype Invalid = BadSize | BadVersion | ServerConflict | PeerConflict | ClientConflict | TooManyLearners
    | LearnerNotNumeric | LearnerTooLarge | VersionDowngrade | VolumeChanged | AlreadyVoter

  // ----- strconv.Atoi and the conversion to int32 -----

  const INT_MAX := 0x7fff_ffff_ffff_ffff

  predicate AllDigits(s: string) {
    forall k :: 0 <= k < |s| ==> '0' <= s[k] <= '9'
  }

  function Digits(s: string): nat
    requires AllDigits(s)
  {
    if s == "" then 0 else 10 * Digits(s[..|s| - 1]) + (s[|s| - 1] as nat - 48)
  }

  /** None: a syntax error, or a value that does not fit 64 bits. */
  function Atoi(s: string): Option<int> {
    if s == "" then None
    else
      var digits := if s[0] == '-' || s[0] == '+' then s[1..] else s;
      if digits == "" || !AllDigits(digits) then None
      else
        var d: int := Digits(digits);
        var n := if s[0] == '-' then -d else d;
        if -INT_MAX - 1 <= n <= INT_MAX then Some(n) else None
  }

  /** int32(n): the low 32 bits, as a signed number. */
  function Int32(n: int): int {
    var low := n % 0x1_0000_0000;
    if low < 0x8000_0000 then low else low - 0x1_0000_0000
  }

  lemma {:induction false} DecimalDigits(n: nat)
    ensures AllDigits(Decimal(n)) && Digits(Decimal(n)) == n
  {
    var s := Decimal(n);
    if n < 10 {
      assert s[..0] == "" && Digits(s[..0]) == 0;
    } else {
      DecimalDigits(n / 10);
      assert s[..|s| - 1] == Decimal(n / 10) && s[|s| - 1] == Digit(n % 10);
    }
  }

  /** A printed ordinal reads back as itself. */
  lemma AtoiDecimal(n: nat)
    ensures Atoi(Decimal(n)) == if n <= INT_MAX then Some(n) else None
  {
    DecimalDigits(n);
    assert Decimal(n)[0] in Decimal(n);
  }

  /** The conversion keeps the low 32 bits and yields a number of 32 bits. */
  lemma Int32Exact(n: int)
    ensures -0x8000_0000 <= Int32(n) < 0x8000_0000 && Int32(n) % 0x1_0000_0000 == n % 0x1_0000_0000
    ensures -0x8000_0000 <= n < 0x8000_0000 ==> Int32(n) == n
  {
  }

  /** A sign may precede the digits, zeros may; anything else is an error. */
  lemma {:induction false} AtoiForms(n: nat, zeros: string)
    requires n <= INT_MAX && forall c :: c in zeros ==> c == '0'
    ensures Atoi(zeros + Decimal(n)) == Atoi("+" + zeros + Decimal(n)) == Some(n)
    ensures Atoi("-" + zeros + Decimal(n)) == Some(-(n as int))
  {
    hide AllDigits, Digits, Decimal;
    var s := zeros + Decimal(n);
    DecimalDigits(n);
    LeadingZeros(zeros, Decimal(n));
    assert "+" + zeros + Decimal(n) == "+" + s && "-" + zeros + Decimal(n) == "-" + s;
    Signed(s, n);
  }

  lemma {:induction false} Signed(s: string, n: nat)
    requires s != "" && AllDigits(s) && Digits(s) == n <= INT_MAX
    ensures Atoi(s) == Atoi("+" + s) == Some(n) && Atoi("-" + s) == Some(-(n as int))
  {
    hide Digits;
    assert '0' <= s[0] <= '9';
    assert ("+" + s)[1..] == s && ("-" + s)[1..] == s;
  }

  lemma {:induction false} LeadingZeros(zeros: string, s: string)
    requires (forall c :: c in zeros ==> c == '0') && AllDigits(s)
    ensures AllDigits(zeros + s) && Digits(zeros + s) == Digits(s)
  {
    if s != "" {
      LeadingZeros(zeros, s[..|s| - 1]);
      assert (zeros + s)[..|zeros + s| - 1] == zeros + s[..|s| - 1];
    } else if zeros != "" {
      var front := zeros[..|zeros| - 1];
      forall c | c in front ensures c == '0' {
        assert c in zeros;
      }
      LeadingZeros(front, "");
      assert zeros + s == zeros && zeros[..|zeros| - 1] + "" == zeros[..|zeros| - 1];
      assert zeros[|zeros| - 1] in zeros;
    } else {
      assert zeros + s == s;
    }
  }

  /** No digits at all, or a character that is none behind the sign. */
  lemma {:induction false} AtoiErrors(s: string)
    ensures s in {"", "+", "-"} ==> Atoi(s) == None
    ensures (exists k :: 1 <= k < |s| && !('0' <= s[k] <= '9')) ==> Atoi(s) == None
    ensures s != "" && s[0] !in {'+', '-'} && !('0' <= s[0] <= '9') ==> Atoi(s) == None
  {
    if k :| 1 <= k < |s| && !('0' <= s[k] <= '9') {
      assert s[1..][k - 1] == s[k];
      assert !AllDigits(s[1..]) && !AllDigits(s);
    }
    if s != "" && s[0] !in {'+', '-'} && !('0' <= s[0] <= '9') {
      assert !AllDigits(s);
    }
  }

  // ----- Validate -----

  function Required(b: bool, e: Invalid): seq<Invalid> {
    if b then [] else [e]
  }

  function CertErrors(e: EtcdCluster): seq<Invalid> {
    if e.tls.Some? && e.tls.value.external.Some? && e.tls.value.auto.Some? then
      var ext, auto := e.tls.value.external.value, e.tls.value.auto.value;
      Required(!(auto.server && ext.serverSecret != ""), ServerConflict)
      + Required(!(auto.peer && ext.peerSecret != ""), PeerConflict)
      + Required(!(auto.client && ext.clientSecret != ""), ClientConflict)
    else []
  }

  function LearnerErrors(e: EtcdCluster): seq<Invalid> {
    if |e.learners| > 1 then [TooManyLearners]
    else if |e.learners| == 0 then []
    else
      match Atoi(e.learners[0])
      case None => [LearnerNotNumeric]
      case Some(index) => Required(Int32(index) < e.size, LearnerTooLarge)
  }

  function SpecErrors(s: Submission, parses: string -> bool): seq<Invalid> {
    Required(1 <= s.spec.size <= 7, BadSize) + Required(parses(s.version), BadVersion) + CertErrors(s.spec)
        + LearnerErrors(s.spec)
  }

  method Validate(s: Submission, parses: string -> bool) returns (allErrs: seq<Invalid>)
    ensures allErrs == SpecErrors(s, parses)
  {
    hide Atoi, Int32, CertErrors;
    var e := s.spec;
    allErrs := [];
    if e.size < 1 || e.size > 7 {
      allErrs := allErrs + [BadSize];
    }
    if !parses(s.version) {
      allErrs := allErrs + [BadVersion];
    }
    allErrs := ValidateCerts(e, allErrs);
    if |e.learners| > 1 {
      allErrs := allErrs + [TooManyLearners];
    } else if |e.learners| == 1 {
      var index := Atoi(e.learners[0]);
      if index.None? {
        allErrs := allErrs + [LearnerNotNumeric];
      } else if Int32(index.value) >= e.size {
        allErrs := allErrs + [LearnerTooLarge];
      }
    }
  }

  /** lines 48-60: a secret from outside and a generated one exclude each other. */
  method ValidateCerts(e: EtcdCluster, errs: seq<Invalid>) returns (allErrs: seq<Invalid>)
    ensures allErrs == errs + CertErrors(e)
  {
    allErrs := errs;
    if e.tls.Some? && e.tls.value.external.Some? && e.tls.value.auto.Some? {
      var external, auto := e.tls.value.external.value, e.tls.value.auto.value;
      if auto.server && external.serverSecret != "" {
        allErrs := allErrs + [ServerConflict];
      }
      if auto.peer && external.peerSecret != "" {
        allErrs := allErrs + [PeerConflict];
      }
      if auto.client && external.clientSecret != "" {
        allErrs := allErrs + [ClientConflict];
      }
    }
  }

  /** What the reconciler gets from an accepted spec: the bounds the scaling protocol relies on. */
  lemma AcceptedIsAdmitted(s: Submission, parses: string -> bool)
    ensures SpecErrors(s, parses) == [] ==> Admitted(s.spec)
    ensures SpecErrors(s, parses) == []
            <==> && Admitted(s.spec) && parses(s.version) && CertErrors(s.spec) == []
                 && (s.spec.learners != [] ==> LearnerAccepted(s.spec))
  {
  }

  /** Which errors a new object gets, one by one. */
  lemma {:induction false} SpecErrorsExact(s: Submission, parses: string -> bool)
    ensures var errs, e := SpecErrors(s, parses), s.spec;
            && (BadSize in errs <==> e.size < 1 || e.size > 7)
            && (BadVersion in errs <==> !parses(s.version))
            && (ServerConflict in errs <==>
                  TwoSources(e) && e.tls.value.auto.value.server && e.tls.value.external.value.serverSecret != "")
            && (PeerConflict in errs <==>
                  TwoSources(e) && e.tls.value.auto.value.peer && e.tls.value.external.value.peerSecret != "")
            && (ClientConflict in errs <==>
                  TwoSources(e) && e.tls.value.auto.value.client && e.tls.value.external.value.clientSecret != "")
            && (TooManyLearners in errs <==> |e.learners| > 1)
            && (LearnerNotNumeric in errs <==> |e.learners| == 1 && Atoi(e.learners[0]) == None)
            && (LearnerTooLarge in errs <==>
                  |e.learners| == 1 && Atoi(e.learners[0]).Some? && Int32(Atoi(e.learners[0]).value) >= e.size)
  {
    hide Atoi, Int32;
    CertErrorsExact(s.spec);
    LearnerErrorsExact(s.spec);
    hide CertErrors, LearnerErrors, TwoSources;
    ErrorsOfAll(s, parses);
  }

  lemma {:induction false} ErrorsOfAll(s: Submission, parses: string -> bool)
    ensures forall x :: x in SpecErrors(s, parses) <==>
              || (x == BadSize && !(1 <= s.spec.size <= 7)) || (x == BadVersion && !parses(s.version))
              || x in CertErrors(s.spec) || x in LearnerErrors(s.spec)
  {
    hide CertErrors, LearnerErrors;
  }

  lemma {:induction false} CertErrorsExact(e: EtcdCluster)
    ensures var errs := CertErrors(e);
            && (forall x :: x in errs ==> x in {ServerConflict, PeerConflict, ClientConflict})
            && (ServerConflict in errs <==>
                  TwoSources(e) && e.tls.value.auto.value.server && e.tls.value.external.value.serverSecret != "")
            && (PeerConflict in errs <==>
                  TwoSources(e) && e.tls.value.auto.value.peer && e.tls.value.external.value.peerSecret != "")
            && (ClientConflict in errs <==>
                  TwoSources(e) && e.tls.value.auto.value.client && e.tls.value.external.value.clientSecret != "")
  {
  }

  lemma {:induction false} LearnerErrorsExact(e: EtcdCluster)
    ensures var errs := LearnerErrors(e);
            && (forall x :: x in errs ==> x in {TooManyLearners, LearnerNotNumeric, LearnerTooLarge})
            && (TooManyLearners in errs <==> |e.learners| > 1)
            && (LearnerNotNumeric in errs <==> |e.learners| == 1 && Atoi(e.learners[0]) == None)
            && (LearnerTooLarge in errs <==>
                  |e.learners| == 1 && Atoi(e.learners[0]).Some? && Int32(Atoi(e.learners[0]).value) >= e.size)
  {
    hide Atoi, Int32;
  }

  /** Certificates are both generated and given from outside. */
  predicate TwoSources(e: EtcdCluster) {
    e.tls.Some? && e.tls.value.auto.Some? && e.tls.value.external.Some?
  }

  /** Which errors an update gets: those of the new object, or else these three. */
  lemma {:induction false} UpdateErrorsExact(was: Submission, now: Submission, parses: string -> bool,
                                             older: (string, string) -> bool)
    ensures var errs := UpdateErrors(was, now, parses, older);
            if SpecErrors(now, parses) != [] then errs == SpecErrors(now, parses)
            else
              && (forall x :: x in errs ==> x in {VersionDowngrade, VolumeChanged, AlreadyVoter})
              && (VersionDowngrade in errs <==> older(now.version, was.version))
              && (VolumeChanged in errs <==> was.volume != now.volume)
              && (AlreadyVoter in errs <==>
                    now.spec.learners != []
                    && exists n :: 0 <= n < |was.members| && VoterNamed(was.members, now.spec.learners[0], n))
  {
    hide SpecErrors, LastField, VoterErrors, VoterNamed;
    if now.spec.learners != [] {
      VoterErrorsExact(was.members, now.spec.learners[0]);
      var errs := VoterErrors(was.members, now.spec.learners[0]);
      assert errs != [] ==> errs[0] in errs && errs[0] == AlreadyVoter;
    }
  }

  predicate LearnerAccepted(e: EtcdCluster)
    requires e.learners != []
  {
    Atoi(e.learners[0]).Some? && Int32(Atoi(e.learners[0]).value) < e.size
  }

  /** The learner that the spec names is the ordinal of a member. */
  ghost predicate LearnerExists(e: EtcdCluster)
    requires e.learners != []
  {
    exists i: nat :: i < e.size && LearnerIs(e, i)
  }

  /** The learner check never refuses an existing ordinal, and what it accepts is an existing ordinal if and only if the
      string is the decimal that Atoi reads from it and that number is not negative as read and fits 32 bits. */
  lemma LearnerCheckExact(e: EtcdCluster)
    requires Admitted(e) && e.learners != []
    ensures LearnerExists(e) ==> LearnerAccepted(e)
    ensures LearnerAccepted(e) ==>
              (LearnerExists(e)
               <==> 0 <= Atoi(e.learners[0]).value < 0x8000_0000 && e.learners[0] == Decimal(Atoi(e.learners[0]).value))
  {
    hide Decimal, Digits, AllDigits;
    var l := e.learners[0];
    if LearnerExists(e) {
      var i: nat :| i < e.size && LearnerIs(e, i);
      AtoiDecimal(i);
    }
    if LearnerAccepted(e) && 0 <= Atoi(l).value < 0x8000_0000 && l == Decimal(Atoi(l).value) {
      assert LearnerIs(e, Atoi(l).value);
    }
  }

  /** Decimals are judged by their low 32 bits: accepted are the existing ordinals and whatever wraps below Size. */
  lemma DecimalLearners(e: EtcdCluster, i: nat)
    requires Admitted(e) && LearnerIs(e, i)
    ensures LearnerAccepted(e) <==> i <= INT_MAX && Int32(i) < e.size
    ensures i < 0x8000_0000 ==> (LearnerAccepted(e) <==> i < e.size)
    ensures 0x8000_0000 <= i < 0x1_0000_0000 ==> LearnerAccepted(e) && !LearnerExists(e)
  {
    AtoiDecimal(i);
    LearnerCheckExact(e);
  }

  /** Strings that pass the check although no member has such an ordinal: negative, signed, padded. */
  lemma StrayLearnersAccepted(e: EtcdCluster)
    requires Admitted(e) && e.learners != [] && e.learners[0] in {"-1", "+0", "00"}
    ensures LearnerAccepted(e) && !LearnerExists(e)
  {
    var l := e.learners[0];
    var d := l[1..];
    assert AllDigits(d);
    assert d == "1" || d == "0";
    assert d[..0] == "" && Digits(d[..0]) == 0;
    assert l == "00" ==> l[..1] == "0" && Digits("0") == 0 by {
      assert "0"[..0] == "";
    }
    assert Atoi(l) == Some(if l == "-1" then -1 else 0);
    assert Decimal(0) == "0";
    LearnerCheckExact(e);
  }

  // ----- ValidateUpdate -----

  predicate Votes(m: EtcdMember) {
    m.role == Leader || m.role == Follower
  }

  function LastField(name: string): string {
    var item := Split(name, '-');
    item[|item| - 1]
  }

  function VoterErrors(members: seq<EtcdMember>, learner: string): seq<Invalid> {
    if members == [] then []
    else
      var m := members[|members| - 1];
      VoterErrors(members[..|members| - 1], learner) + Required(LastField(m.name) != learner || !Votes(m), AlreadyVoter)
  }

  function UpdateErrors(was: Submission, now: Submission, parses: string -> bool, older: (string,
                        string) -> bool): seq<Invalid> {
    if SpecErrors(now, parses) != [] then SpecErrors(now, parses)
    else
      Required(!older(now.version, was.version), VersionDowngrade) + Required(was.volume == now.volume, VolumeChanged)
      + if |now.spec.learners| > 0 then VoterErrors(was.members, now.spec.learners[0]) else []
  }

  method ValidateUpdate(was: Submission, now: Submission, parses: string -> bool, older: (string, string) -> bool)
    returns (allErrs: seq<Invalid>)
    ensures allErrs == UpdateErrors(was, now, parses, older)
  {
    hide SpecErrors, LastField;
    allErrs := Validate(now, parses);
    if |allErrs| > 0 {
      return;
    }
    if older(now.version, was.version) {
      allErrs := allErrs + [VersionDowngrade];
    }
    if was.volume != now.volume {
      allErrs := allErrs + [VolumeChanged];
    }
    if |now.spec.learners| > 0 {
      ghost var basic := allErrs;
      for n := 0 to |was.members|
        invariant allErrs == basic + VoterErrors(was.members[..n], now.spec.learners[0])
      {
        assert was.members[..n + 1][..n] == was.members[..n];
        var member := was.members[n];
        if LastField(member.name) != now.spec.learners[0] {
          continue;
        }
        if member.role == Leader || member.role == Follower {
          allErrs := allErrs + [AlreadyVoter];
        }
      }
      assert was.members[..|was.members|] == was.members;
    }
  }

  /** Entry n is a recorded voter whose name ends in the learner's number. */
  predicate VoterNamed(members: seq<EtcdMember>, learner: string, n: nat)
    requires n < |members|
  {
    LastField(members[n].name) == learner && Votes(members[n])
  }

  lemma {:induction false} VoterErrorsExact(members: seq<EtcdMember>, learner: string)
    ensures VoterErrors(members, learner) != [] <==> exists n :: 0 <= n < |members| && VoterNamed(members, learner, n)
    ensures forall x :: x in VoterErrors(members, learner) ==> x == AlreadyVoter
  {
    if members != [] {
      var k := |members| - 1;
      var front := members[..k];
      VoterErrorsExact(front, learner);
      SameEntries(members, learner);
      hide VoterNamed;
      assert VoterErrors(members, learner) == VoterErrors(front, learner)
          + Required(!VoterNamed(members, learner, k), AlreadyVoter) by {
        LastEntry(members, learner);
      }
      if n :| 0 <= n < k && VoterNamed(front, learner, n) {
        assert VoterNamed(members, learner, n);
      }
      if n :| 0 <= n < |members| && VoterNamed(members, learner, n) {
        assert n < k ==> VoterNamed(front, learner, n);
      }
    }
  }

  lemma {:induction false} LastEntry(members: seq<EtcdMember>, learner: string)
    requires members != []
    ensures var k := |members| - 1;
            VoterErrors(members, learner)
            == VoterErrors(members[..k], learner) + Required(!VoterNamed(members, learner, k), AlreadyVoter)
  {
    hide LastField, Votes;
  }

  lemma {:induction false} SameEntries(members: seq<EtcdMember>, learner: string)
    requires members != []
    ensures forall n :: 0 <= n < |members| - 1 ==>
        VoterNamed(members[..|members| - 1], learner, n) == VoterNamed(members, learner, n)
  {
    hide LastField, Votes;
  }

  /** The recorded list has the member of ordinal n, if started, at position n under its generated name. */
  ghost predicate InOrdinalOrder(members: seq<EtcdMember>, app: string) {
    forall n :: 0 <= n < |members| ==> members[n].name == "" || members[n].name == MemberName(app, n)
  }

  /** Making ordinal i a learner is refused as a voter's demotion if and only if the list records that very ordinal as
      Leader or Follower, whatever dashes the cluster's name contains. */
  lemma {:induction false} VoterCheckExact(members: seq<EtcdMember>, app: string, i: nat)
    requires InOrdinalOrder(members, app)
    ensures VoterErrors(members, Decimal(i)) != []
        <==> i < |members| && members[i].name == MemberName(app, i) && Votes(members[i])
  {
    hide MemberName, VoterErrors, LastField, Votes;
    VoterErrorsExact(members, Decimal(i));
    forall n: nat | n < |members|
      ensures VoterNamed(members, Decimal(i), n)
          <==> n == i && members[n].name == MemberName(app, i) && Votes(members[n])
    {
      FieldOfEntry(members[n].name, app, n, i);
    }
    if i < |members| && members[i].name == MemberName(app, i) && Votes(members[i]) {
      assert VoterNamed(members, Decimal(i), i);
    }
  }

  lemma {:induction false} FieldOfEntry(name: string, app: string, n: nat, i: nat)
    requires name == "" || name == MemberName(app, n)
    ensures LastField(name) == Decimal(i) <==> n == i && name == MemberName(app, i)
  {
    LastFieldIsOrdinal(app, n);
    assert MemberName(app, i) != "" && LastField("") == "";
    if LastField(name) == Decimal(i) {
      DecimalInjective(n, i);
    }
  }

  /** In every run of the scaling protocol: with the member list recorded from a MemberList of the state reached, an
      update that names ordinal i as learner is refused on that ground if and only if the list shows the started
      member i voting. */
  lemma {:induction false} VoterCheckInEveryRun(s: State, acts: seq<Action>, listed: seq<Listing>,
                                                known: seq<EtcdMember>,
                                                answers: nat -> Option<Answer>, r: seq<EtcdMember>, i: nat)
    requires Init(s) && Runs(s, acts) && Lists(listed, Exec(s, acts))
    requires UniqueIds(known) && Refreshes(r, listed, known, answers)
    ensures VoterErrors(r, Decimal(i)) != []
            <==> i < |r| && r[i].name == MemberName(NameForTApp(Exec(s, acts).spec), i) && Votes(r[i])
  {
    hide Init, Runs, Exec, Inv, Lists, Refreshes, UniqueIds, InNameOrder, VoterErrors, MemberName;
    InitNames(s);
    RunKeepsNames(s, acts);
    StatusInEveryRun(s, acts, listed, known, answers, r);
    VoterCheckExact(r, NameForTApp(Exec(s, acts).spec), i);
  }

  /** An update passes if and only if the new object passes by itself, the version does not go back, the volume stays,
      and nobody recorded as a voter is named as the learner. */
  lemma {:induction false} UpdateAcceptedExact(was: Submission, now: Submission, parses: string -> bool,
                                               older: (string, string) -> bool)
    ensures UpdateErrors(was, now, parses, older) == []
            <==> && SpecErrors(now, parses) == []
                 && !older(now.version, was.version)
                 && was.volume == now.volume
                 && (now.spec.learners != [] ==>
                       forall n :: 0 <= n < |was.members| ==> !VoterNamed(was.members, now.spec.learners[0], n))
  {
    hide SpecErrors, LastField, VoterErrors, VoterNamed;
    if now.spec.learners != [] {
      VoterErrorsExact(was.members, now.spec.learners[0]);
    }
  }
}

/** How the ledger's digests are built: tag, NUL, eight length bytes, canonical JSON. */
module CorrectionSeal {
  import opened Bytes
  import opened CorrectionLedger
  import CorrectionHistory

  const FIELDS_TAG := "finance-correction-fields-v1"
  const PLAN_TAG := "finance-correction-plan-v1"
  const CORE_TAG := "finance-correction-result-core-v1"

  function Framed(tag: string, payload: ByteString): ByteString
    requires IsTag(tag)
  {
    Ascii(tag) + [0] + BigEndian(|payload|, 8) + payload
  }

  /** A frame determines both its tag and its payload. */
  lemma FrameDeterminesParts(t: string, a: ByteString, u: string, b: ByteString)
    requires IsTag(t) && IsTag(u)
    requires Framed(t, a) == Framed(u, b)
    ensures t == u && a == b
  {
    var f, g := Framed(t, a), Framed(u, b);
    assert f[|t|] == 0 && g[|u|] == 0;
    assert forall i | 0 <= i < |u| :: g[i] == u[i] as int;
    assert forall i | 0 <= i < |t| :: f[i] == t[i] as int;
    assert |t| == |u|;
    assert f[|t| + 9..] == a && g[|u| + 9..] == b;
    forall i | 0 <= i < |t| ensures t[i] == u[i] {
      assert f[i] == g[i];
    }
  }

  ghost predicate Injective<A(!new), B>(f: A -> B) {
    forall x, y :: f(x) == f(y) ==> x == y
  }

  function HashingOf(sha: ByteString -> string, fieldsJson: Fields -> ByteString,
                     planJson: PlanBody -> ByteString, coreJson: ResultCore -> ByteString): Hashing
  {
    Hashing(sha,
            f => sha(fieldsJson(f)),
            f => sha(Framed(FIELDS_TAG, fieldsJson(f))),
            b => sha(Framed(PLAN_TAG, planJson(b))),
            c => sha(Framed(CORE_TAG, coreJson(c))))
  }

  lemma TagsDiffer()
    ensures IsTag(FIELDS_TAG) && IsTag(PLAN_TAG) && IsTag(CORE_TAG)
    ensures PLAN_TAG != CORE_TAG && FIELDS_TAG != PLAN_TAG && FIELDS_TAG != CORE_TAG
  {
    assert PLAN_TAG[19] != CORE_TAG[19] && FIELDS_TAG[19] != PLAN_TAG[19] && FIELDS_TAG[19] != CORE_TAG[19];
  }

  /** An injective digest over injective canonical JSON gives tagged digests that neither
      collide among themselves nor across the plan, result and field domains. */
  lemma TaggedDigestsCollisionFree(sha: ByteString -> string, fieldsJson: Fields -> ByteString,
                                   planJson: PlanBody -> ByteString, coreJson: ResultCore -> ByteString)
    requires Injective(sha) && Injective(fieldsJson) && Injective(planJson) && Injective(coreJson)
    ensures var h := HashingOf(sha, fieldsJson, planJson, coreJson);
            && CorrectionHistory.CollisionFree(h)
            && (forall b, c :: h.plan(b) != h.core(c))
            && (forall f, b :: h.fields(f) != h.plan(b))
            && (forall f, c :: h.fields(f) != h.core(c))
  {
    TagsDiffer();
    forall t, u, a, b | IsTag(t) && IsTag(u) && Framed(t, a) == Framed(u, b) ensures t == u && a == b {
      FrameDeterminesParts(t, a, u, b);
    }
  }
}

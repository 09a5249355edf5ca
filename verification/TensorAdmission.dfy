/** Admission of a job's inputs and the later dispatch of the same inputs, in src/omnitensor/dispatch.py: that they agree. */
module TensorAdmission {
  import opened Octets
  import opened Prelude
  import opened TensorReferences
  import opened Tensors

  /** One input of the model's declared contract. */
  datatype Spec = Spec(shape: seq<nat>, dtype: Dtype)

  /** What is known of a supplied input: its shape when it could be measured, its dtype when it was stated. */
  datatype Supplied = Supplied(shape: Option<seq<nat>>, dtype: Option<Dtype>)

  /** No declared contract, or as many inputs as declared and nothing known that disagrees. */
  predicate Agrees(specs: seq<Spec>, supplied: seq<Supplied>) {
    specs == [] || (
      |supplied| == |specs| &&
      forall i :: 0 <= i < |specs| ==>
        (supplied[i].shape.Some? ==> supplied[i].shape.value == specs[i].shape) &&
        (supplied[i].dtype.Some? ==> supplied[i].dtype.value == specs[i].dtype))
  }

  function Declared(refs: seq<Reference>): (r: seq<Supplied>)
    ensures |r| == |refs|
    ensures forall i :: 0 <= i < |r| ==> r[i] == Supplied(Some(refs[i].shape), Some(refs[i].dtype))
  {
    seq(|refs|, i requires 0 <= i < |refs| => Supplied(Some(refs[i].shape), Some(refs[i].dtype)))
  }

  function Measured(tensors: seq<Tensor>): (r: seq<Supplied>)
    ensures |r| == |tensors|
    ensures forall i :: 0 <= i < |r| ==> r[i] == Supplied(MeasuredShape(tensors[i]), None)
  {
    seq(|tensors|, i requires 0 <= i < |tensors| => Supplied(MeasuredShape(tensors[i]), None))
  }

  /** Elements the references declare, all together. */
  function Elements(refs: seq<Reference>): nat {
    if refs == [] then 0 else Product(refs[0].shape) + Elements(refs[1..])
  }

  ghost predicate AllVerify(refs: seq<Reference>, disk: Disk) {
    forall r :: r in refs ==> Verdict(r, disk).None?
  }

  /** Ways of reading each file, none of which matters. */
  ghost predicate Cuts(disk: Disk, chunks: File -> seq<Bytes>) {
    forall f: File :: disk.content(f).Some? ==> Joined(chunks(f)) == disk.content(f).value
  }

  /** The check of references the submitting call gets: contract, declared size, then each file without keeping it. */
  method AdmitReferences(
    specs: seq<Spec>, refs: seq<Reference>, disk: Disk, chunks: File -> seq<Bytes>, maximum: nat)
    returns (refusal: Option<Refusal>)
    requires Cuts(disk, chunks)
    ensures refusal.None? <==> Agrees(specs, Declared(refs)) && Elements(refs) <= maximum && AllVerify(refs, disk)
  {
    if !Agrees(specs, Declared(refs)) {
      return Some(ContractMismatch);
    }
    var budget := new ElementBudget(maximum);
    for i := 0 to |refs|
      invariant fresh(budget) && budget.remaining >= 0
      invariant budget.remaining + Elements(refs) == maximum + Elements(refs[i..])
      invariant AllVerify(refs[..i], disk)
    {
      assert refs[i..][1..] == refs[i + 1..];
      assert refs[..i + 1] == refs[..i] + [refs[i]];
      var within := budget.Spend(Product(refs[i].shape));
      if !within {
        return Some(PayloadInvalid(OverBudget));
      }
      refusal := VerifyReference(refs[i], disk, chunks(refs[i].path));
      if refusal.Some? {
        assert refs[i] in refs;
        return;
      }
    }
    assert refs[..|refs|] == refs;
    refusal := None;
  }

  /** What a job with references is later run on: every file read again, then validated like an inline payload. */
  method ReferencedInputs(refs: seq<Reference>, disk: Disk, chunks: File -> seq<Bytes>, maximum: nat)
    returns (v: Result<seq<Tensor>, Refusal>)
    requires Cuts(disk, chunks) && forall r :: r in refs ==> ShapeOk(r.shape)
    ensures v.Ok? <==> AllVerify(refs, disk) && Elements(refs) <= maximum
    ensures v.Ok? ==> |v.value| == |refs| && forall i :: 0 <= i < |refs| ==> Carries(v.value[i], refs[i], disk)
  {
    var tensors: seq<Tensor> := [];
    for i := 0 to |refs|
      invariant |tensors| == i && AllVerify(refs[..i], disk)
      invariant forall k :: 0 <= k < i ==> Carries(tensors[k], refs[k], disk)
    {
      assert refs[..i + 1] == refs[..i] + [refs[i]];
      var loaded := LoadReferencedTensor(refs[i], disk, chunks(refs[i].path));
      if loaded.Err? {
        assert refs[i] in refs;
        return Err(loaded.error);
      }
      tensors := tensors + [loaded.value];
    }
    assert refs[..|refs|] == refs;
    LoadedAccepted(tensors, refs, disk, maximum);
    var budget := new ElementBudget(maximum);
    var fault := ValidateItems(tensors, budget);
    v := if fault.Some? then Err(PayloadInvalid(fault.value)) else Ok(tensors);
  }

  /** `t` is the tensor the reference declares: its shape, and its file's numbers in row-major order. */
  ghost predicate Carries(t: Tensor, r: Reference, disk: Disk) {
    && Verdict(r, disk).None?
    && HasShape(t, r.shape) && AllFinite(Flat(t))
    && Flat(t) == Unpacked(disk.content(r.path).value, r.dtype)
  }

  lemma {:induction false} LoadedFlat(tensors: seq<Tensor>, refs: seq<Reference>, disk: Disk)
    requires |tensors| == |refs| && forall i :: 0 <= i < |refs| ==> Carries(tensors[i], refs[i], disk)
    ensures |FlatAll(tensors)| == Elements(refs) && AllFinite(FlatAll(tensors))
    ensures forall i :: 0 <= i < |tensors| ==> RectangularTensor(tensors[i])
    decreases |refs|
  {
    hide Verdict, Unpacked, HasShape;
    if refs != [] {
      FlatSize(tensors[0], refs[0].shape);
      ShapeUnique(tensors[0], refs[0].shape);
      LoadedFlat(tensors[1..], refs[1..], disk);
      FiniteSplit(Flat(tensors[0]), FlatAll(tensors[1..]));
      assert tensors == [tensors[0]] + tensors[1..];
    }
  }

  /** Counting leaf by leaf what was declared by shape comes to the same verdict. */
  lemma LoadedAccepted(tensors: seq<Tensor>, refs: seq<Reference>, disk: Disk, maximum: nat)
    requires |tensors| == |refs| && forall i :: 0 <= i < |refs| ==> Carries(tensors[i], refs[i], disk)
    ensures JudgeAll(tensors, maximum).fault.None? <==> Elements(refs) <= maximum
  {
    LoadedFlat(tensors, refs, disk);
    JudgeAllAccepts(tensors, maximum);
  }

  // The payload as it is submitted.

  /** The dtype a reference states; one that states none is float32. */
  datatype DtypeGiven = Unstated | Stated(dtype: Dtype) | Unknown

  /** One reference as the payload gives it, with what is missing or of the wrong kind left out. */
  datatype Document =
    | NotADocument
    | Document(path: Option<File>, dtype: DtypeGiven, shape: Option<seq<Dimension>>, digest: Option<Digest>)

  /** A key of the payload: not there, there with something that is no list, or a list. */
  datatype Listing<T> = Missing | NotAList | Listed(items: seq<T>)

  datatype Payload = NotAnObject | Payload(inputs: Listing<Tensor>, refs: Listing<Document>)

  function ParsedReference(d: Document): (r: Option<Reference>)
    ensures r.Some? ==> ShapeOk(r.value.shape)
  {
    if d.NotADocument? || d.path.None? || d.dtype.Unknown? || d.shape.None? || d.digest.None? then None
    else
      var shape := ParsedShape(d.shape.value);
      if shape.None? then None
      else
        Some(Reference(d.path.value, shape.value, if d.dtype.Stated? then d.dtype.dtype else Float32, d.digest.value))
  }

  function ParsedReferences(docs: seq<Document>): (r: Option<seq<Reference>>)
    ensures r.Some? ==> |r.value| == |docs| && forall x :: x in r.value ==> ShapeOk(x.shape)
  {
    if docs == [] then Some([])
    else
      var first, rest := ParsedReference(docs[0]), ParsedReferences(docs[1..]);
      if first.None? || rest.None? then None else Some([first.value] + rest.value)
  }

  /** The references a payload declares, none for an inline payload, or why it can be neither. */
  function References(payload: Payload, maxTensors: nat): (r: Result<Option<seq<Reference>>, Refusal>)
    ensures r.Ok? && r.value.Some? ==>
      1 <= |r.value.value| <= maxTensors && forall x :: x in r.value.value ==> ShapeOk(x.shape)
  {
    if payload.NotAnObject? then Err(PayloadUnusable)
    else match payload.refs
      case Missing => Ok(None)
      case NotAList => Err(ReferenceInvalid)
      case Listed(docs) =>
        if docs == [] || |docs| > maxTensors || !payload.inputs.Missing? || ParsedReferences(docs).None? then
          Err(ReferenceInvalid)
        else Ok(Some(ParsedReferences(docs).value))
  }

  /**
   A reference is usable exactly when it states a path, a digest, a shape of one to six dimensions of 1 to 65536, and
   no dtype or one there is; it then is what it states, float32 where it states no dtype.
   */
  lemma ParsesExactly(d: Document)
    ensures ParsedReference(d).Some? <==>
      && d.Document? && d.path.Some? && d.digest.Some? && d.shape.Some? && !d.dtype.Unknown?
      && 1 <= |d.shape.value| <= 6
      && forall i :: 0 <= i < |d.shape.value| ==> d.shape.value[i].IntDimension? && 1 <= d.shape.value[i].n <= 65536
    ensures ParsedReference(d).Some? ==>
      var r := ParsedReference(d).value;
      && r.path == d.path.value && r.digest == d.digest.value && |r.shape| == |d.shape.value|
      && (forall i :: 0 <= i < |r.shape| ==> d.shape.value[i] == IntDimension(r.shape[i]))
      && (if d.dtype == Unstated then r.dtype == Float32 else d.dtype == Stated(r.dtype))
  {
  }

  /** All of them usable, each parsed as it stands. */
  lemma {:induction false} AllParseExactly(docs: seq<Document>)
    ensures ParsedReferences(docs).Some? <==> forall i :: 0 <= i < |docs| ==> ParsedReference(docs[i]).Some?
    ensures ParsedReferences(docs).Some? ==>
      forall i :: 0 <= i < |docs| ==> ParsedReference(docs[i]) == Some(ParsedReferences(docs).value[i])
  {
    hide ParsedReference;
    if docs != [] {
      AllParseExactly(docs[1..]);
      assert forall i :: 0 < i < |docs| ==> docs[i] == docs[1..][i - 1];
    }
  }

  /** Which payloads carry references: a nonempty list, not too long, of usable ones, with no inline inputs beside it. */
  lemma ReferencesExactly(payload: Payload, maxTensors: nat)
    ensures var r := References(payload, maxTensors);
      && (r == Err(PayloadUnusable) <==> payload.NotAnObject?)
      && (r == Ok(None) <==> payload.Payload? && payload.refs.Missing?)
      && (r.Ok? && r.value.Some? <==>
            && payload.Payload? && payload.refs.Listed? && payload.inputs.Missing?
            && 1 <= |payload.refs.items| <= maxTensors
            && forall i :: 0 <= i < |payload.refs.items| ==> ParsedReference(payload.refs.items[i]).Some?)
      && (r.Ok? || r.error == PayloadUnusable || r.error == ReferenceInvalid)
  {
    if payload.Payload? && payload.refs.Listed? {
      AllParseExactly(payload.refs.items);
    }
    hide ParsedReference, ParsedReferences;
  }

  method ParseReference(d: Document) returns (r: Option<Reference>)
    ensures r == ParsedReference(d)
  {
    if d.NotADocument? || d.path.None? || d.dtype.Unknown? || d.shape.None? {
      return None;
    }
    var shape := ParseShape(d.shape.value);
    if shape.None? || d.digest.None? {
      return None;
    }
    var dtype := if d.dtype.Stated? then d.dtype.dtype else Float32;
    return Some(Reference(d.path.value, shape.value, dtype, d.digest.value));
  }

  lemma {:induction false} ParsedSplit(docs: seq<Document>, i: nat)
    requires i < |docs|
    ensures ParsedReferences(docs[..i + 1]) ==
      if ParsedReferences(docs[..i]).None? || ParsedReference(docs[i]).None? then None
      else Some(ParsedReferences(docs[..i]).value + [ParsedReference(docs[i]).value])
  {
    hide ParsedReference;
    var done := docs[..i + 1];
    assert done[0] == docs[0];
    if i == 0 {
      assert done[1..] == [] && docs[..0] == [];
      assert ParsedReferences(docs[..0]) == Some([]) == ParsedReferences(done[1..]);
      var first := ParsedReference(docs[0]);
      assert first.Some? ==> [first.value] + [] == [] + [first.value];
    } else {
      ParsedSplit(docs[1..], i - 1);
      assert done[1..] == docs[1..][..i] && docs[..i][1..] == docs[1..][..i - 1];
      assert docs[..i][0] == docs[0] && docs[1..][i - 1] == docs[i];
      var first, rest, last := ParsedReference(docs[0]), ParsedReferences(docs[..i][1..]), ParsedReference(docs[i]);
      if first.Some? && rest.Some? && last.Some? {
        assert [first.value] + (rest.value + [last.value]) == ([first.value] + rest.value) + [last.value];
      }
    }
  }

  lemma {:induction false} ParsedPrefix(docs: seq<Document>, i: nat)
    requires i <= |docs| && ParsedReferences(docs[..i]).None?
    ensures ParsedReferences(docs).None?
    decreases |docs| - i
  {
    if i == |docs| {
      assert docs[..i] == docs;
    } else {
      ParsedSplit(docs, i);
      ParsedPrefix(docs, i + 1);
    }
  }

  method ParseReferences(payload: Payload, maxTensors: nat) returns (r: Result<Option<seq<Reference>>, Refusal>)
    ensures r == References(payload, maxTensors)
  {
    if payload.NotAnObject? {
      return Err(PayloadUnusable);
    }
    if payload.refs.Missing? {
      return Ok(None);
    }
    if payload.refs.NotAList? || payload.refs.items == [] {
      return Err(ReferenceInvalid);
    }
    var docs := payload.refs.items;
    if |docs| > maxTensors || !payload.inputs.Missing? {
      return Err(ReferenceInvalid);
    }
    var refs: seq<Reference> := [];
    for i := 0 to |docs|
      invariant ParsedReferences(docs[..i]) == Some(refs)
    {
      ParsedSplit(docs, i);
      var parsed := ParseReference(docs[i]);
      if parsed.None? {
        ParsedPrefix(docs, i + 1);
        return Err(ReferenceInvalid);
      }
      refs := refs + [parsed.value];
    }
    assert docs[..|docs|] == docs;
    return Ok(Some(refs));
  }

  method InlineInputs(payload: Payload, maxTensors: nat) returns (v: Result<seq<Tensor>, Refusal>)
    requires payload.Payload?
    ensures v == if Inline(payload, maxTensors) then Ok(payload.inputs.items) else Err(PayloadUnusable)
  {
    if !payload.inputs.Listed? {
      return Err(PayloadUnusable);
    }
    if |payload.inputs.items| > maxTensors {
      return Err(PayloadUnusable);
    }
    return Ok(payload.inputs.items);
  }

  /** Tensors listed in the payload itself, not more of them than allowed. */
  predicate Inline(payload: Payload, maxTensors: nat) {
    payload.Payload? && payload.inputs.Listed? && |payload.inputs.items| <= maxTensors
  }

  // Both branches.

  /** What a payload has to be to run: files that verify and elements that fit, or tensors that are valid and fit. */
  ghost predicate Runs(payload: Payload, disk: Disk, maxTensors: nat, maximum: nat) {
    match References(payload, maxTensors)
    case Err(_) => false
    case Ok(Some(refs)) => AllVerify(refs, disk) && Elements(refs) <= maximum
    case Ok(None) => Inline(payload, maxTensors) && JudgeAll(payload.inputs.items, maximum).fault.None?
  }

  /** What is known of the inputs before they run: declared by the references, or measured on the tensors. */
  function SuppliedBy(payload: Payload, maxTensors: nat): seq<Supplied> {
    match References(payload, maxTensors)
    case Ok(Some(refs)) => Declared(refs)
    case _ => if Inline(payload, maxTensors) then Measured(payload.inputs.items) else []
  }

  /** The tensors a payload runs on: its own, or those its files hold. */
  ghost predicate RunsOn(payload: Payload, disk: Disk, maxTensors: nat, tensors: seq<Tensor>) {
    match References(payload, maxTensors)
    case Err(_) => false
    case Ok(Some(refs)) => |tensors| == |refs| && forall i :: 0 <= i < |refs| ==> Carries(tensors[i], refs[i], disk)
    case Ok(None) => Inline(payload, maxTensors) && tensors == payload.inputs.items
  }

  method Validated(tensors: seq<Tensor>, maximum: nat) returns (fault: Option<Fault>)
    ensures fault == JudgeAll(tensors, maximum).fault
  {
    var budget := new ElementBudget(maximum);
    fault := ValidateItems(tensors, budget);
  }

  /** Admission: what the submitting call is refused for. */
  method Admit(
    specs: seq<Spec>, payload: Payload, disk: Disk, chunks: File -> seq<Bytes>, maxTensors: nat, maximum: nat)
    returns (refusal: Option<Refusal>)
    requires Cuts(disk, chunks)
    ensures refusal.None? <==>
      Runs(payload, disk, maxTensors, maximum) && Agrees(specs, SuppliedBy(payload, maxTensors))
  {
    hide Agrees, JudgeAll;
    var references := ParseReferences(payload, maxTensors);
    if references.Err? {
      return Some(references.error);
    }
    if references.value.None? {
      var inputs := InlineInputs(payload, maxTensors);
      if inputs.Err? {
        return Some(inputs.error);
      }
      var fault := Validated(inputs.value, maximum);
      if fault.Some? {
        return Some(PayloadInvalid(fault.value));
      }
      return if Agrees(specs, Measured(inputs.value)) then None else Some(ContractMismatch);
    }
    refusal := AdmitReferences(specs, references.value.value, disk, chunks, maximum);
  }

  /** Dispatch: the tensors the executor is handed, read and validated again. */
  method Inputs(payload: Payload, disk: Disk, chunks: File -> seq<Bytes>, maxTensors: nat, maximum: nat)
    returns (v: Result<seq<Tensor>, Refusal>)
    requires Cuts(disk, chunks)
    ensures v.Ok? <==> Runs(payload, disk, maxTensors, maximum)
    ensures v.Ok? ==> RunsOn(payload, disk, maxTensors, v.value)
  {
    hide JudgeAll, Carries;
    var references := ParseReferences(payload, maxTensors);
    if references.Err? {
      return Err(references.error);
    }
    if references.value.Some? {
      v := ReferencedInputs(references.value.value, disk, chunks, maximum);
      return;
    }
    v := InlineInputs(payload, maxTensors);
    if v.Ok? {
      var fault := Validated(v.value, maximum);
      if fault.Some? {
        v := Err(PayloadInvalid(fault.value));
      }
    }
  }

  /** A tensor the declared shape does not bind: a bare number, or nested lists that hold no number. */
  predicate Unmeasured(t: Tensor) { t.Number? || Flat(t) == [] }

  /**
   Admission previews dispatch, for every payload: with the files unchanged and however each read is cut, the
   payloads admission accepts are exactly those of the declared contract that dispatch accepts. Dispatch then
   holds as many tensors as declared, each of its declared shape; inline, a tensor may instead be unmeasured.
   */
  method AdmissionPreviewsDispatch(
    specs: seq<Spec>, payload: Payload, disk: Disk,
    admitting: File -> seq<Bytes>, dispatching: File -> seq<Bytes>, maxTensors: nat, maximum: nat)
    returns (admitted: Option<Refusal>, inputs: Result<seq<Tensor>, Refusal>)
    requires Cuts(disk, admitting) && Cuts(disk, dispatching)
    ensures admitted.None? <==> Agrees(specs, SuppliedBy(payload, maxTensors)) && inputs.Ok?
    ensures admitted.None? && specs != [] ==> |inputs.value| == |specs|
    ensures admitted.None? && specs != [] ==> forall i :: 0 <= i < |specs| ==>
      HasShape(inputs.value[i], specs[i].shape) || (payload.refs.Missing? && Unmeasured(inputs.value[i]))
  {
    admitted := Admit(specs, payload, disk, admitting, maxTensors, maximum);
    inputs := Inputs(payload, disk, dispatching, maxTensors, maximum);
    if admitted.None? && specs != [] {
      if payload.refs.Missing? {
        InlineAgrees(specs, payload.inputs.items, maximum);
      } else {
        ReferencesAgree(specs, payload, disk, maxTensors, inputs.value);
      }
    }
  }

  /** References agree with a contract exactly when there are as many, each of the declared shape and dtype. */
  lemma ReferencesAgreeExactly(specs: seq<Spec>, refs: seq<Reference>)
    ensures Agrees(specs, Declared(refs)) <==>
      specs == [] ||
      (|refs| == |specs| && forall i :: 0 <= i < |specs| ==> refs[i].shape == specs[i].shape && refs[i].dtype == specs[i].dtype)
  {
    if |refs| == |specs| {
      assert forall i :: 0 <= i < |refs| ==> Declared(refs)[i] == Supplied(Some(refs[i].shape), Some(refs[i].dtype));
    }
  }

  lemma ReferencesAgree(specs: seq<Spec>, payload: Payload, disk: Disk, maxTensors: nat, tensors: seq<Tensor>)
    requires specs != [] && payload.Payload? && !payload.refs.Missing? && RunsOn(payload, disk, maxTensors, tensors)
    requires Agrees(specs, SuppliedBy(payload, maxTensors))
    ensures |tensors| == |specs| && forall i :: 0 <= i < |specs| ==> HasShape(tensors[i], specs[i].shape)
  {
    var refs := References(payload, maxTensors).value.value;
    assert Declared(refs) == SuppliedBy(payload, maxTensors);
    hide References;
    forall i | 0 <= i < |specs| ensures HasShape(tensors[i], specs[i].shape) {
      assert Carries(tensors[i], refs[i], disk);
      assert Declared(refs)[i].shape == Some(refs[i].shape);
    }
  }

  /**
   When valid inline tensors agree with a declared contract: exactly when there are as many as declared and each
   that is not a bare number and holds a number has the declared shape.
   */
  lemma InlineAgrees(specs: seq<Spec>, tensors: seq<Tensor>, maximum: nat)
    requires specs != [] && JudgeAll(tensors, maximum).fault.None?
    ensures Agrees(specs, Measured(tensors)) <==>
      |tensors| == |specs| &&
      forall i :: 0 <= i < |specs| ==> Unmeasured(tensors[i]) || HasShape(tensors[i], specs[i].shape)
  {
    JudgeAllAccepts(tensors, maximum);
    if |tensors| == |specs| {
      forall i | 0 <= i < |specs|
        ensures Measured(tensors)[i].shape == if Unmeasured(tensors[i]) then None else Some(TensorShape(tensors[i]))
        ensures Measured(tensors)[i].dtype.None?
        ensures TensorShape(tensors[i]) == specs[i].shape <==> HasShape(tensors[i], specs[i].shape)
      {
        MeasuresAccepted(tensors[i]);
        if HasShape(tensors[i], specs[i].shape) {
          ShapeUnique(tensors[i], specs[i].shape);
        }
      }
      hide HasShape, Flat, TensorShape, MeasuredShape;
    }
  }

  /** So a bare number is admitted, and dispatched, against any declared shape at all, though it has none but []. */
  lemma BareNumberRuns(v: Value, spec: Spec, disk: Disk, maxTensors: nat, maximum: nat)
    requires Finite(v) && maxTensors >= 1 && maximum >= 1
    ensures var payload := Payload(Listed([Number(v)]), Missing);
      Runs(payload, disk, maxTensors, maximum) && Agrees([spec], SuppliedBy(payload, maxTensors))
    ensures HasShape(Number(v), spec.shape) <==> spec.shape == []
  {
    var tensors := [Number(v)];
    assert tensors[1..] == [];
    assert Judge(tensors[0], maximum) == Judgement(None, maximum - 1);
    assert JudgeAll(tensors, maximum).fault.None?;
    InlineAgrees([spec], tensors, maximum);
  }
}

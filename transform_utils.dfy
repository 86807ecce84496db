/**
 * TransformUtils: turning the scene format's transform data into matrices.
 *
 * Doubles are modelled as reals and the narrowing to float is not modelled.
 * JOML's `scale`, `rotateY`, `rotateX`, `rotateZ` and `translate` each
 * post-multiply the receiver (M := M * X); sine and cosine are supplied by
 * the caller as a `Trig` value.
 */
module TransformUtils {
  import opened Wrappers
  import opened Matrix
  import opened Errors
  import opened Model

  /** The sine and cosine functions the rotations are built with. */
  datatype Trig = Trig(sin: real -> real, cos: real -> real)

  const TransformListMessage: string := "Transform list must contain 16 elements for a 4x4 matrix."

  /**
   * listToMatrix4f: a list of exactly sixteen numbers becomes the matrix
   * whose constructor slot i holds entry i; a null list or one of any other
   * length is rejected with an IllegalArgumentException.
   */
  function ListToMatrix4f(transformList: Option<seq<real>>): (r: Result<Matrix4f, Error>)
    ensures r.Success? <==> transformList.Some? && |transformList.value| == 16
    ensures r.Failure? ==> r.error == IllegalArgument(TransformListMessage)
    ensures r.Success? ==> Slots(r.value) == transformList.value
  {
    if transformList.None? || |transformList.value| != 16 then
      Failure(IllegalArgument(TransformListMessage))
    else
      var l := transformList.value;
      Success(Matrix4f(l[0], l[1], l[2], l[3], l[4], l[5], l[6], l[7],
                       l[8], l[9], l[10], l[11], l[12], l[13], l[14], l[15]))
  }

  /** List entry i lands in column i / 4, row i % 4: the list is read column by column. */
  lemma ListToMatrix4fColumnMajor(l: seq<real>, i: nat)
    requires |l| == 16 && i < 16
    ensures At(ListToMatrix4f(Some(l)).value, i / 4, i % 4) == l[i]
  {
    var m := ListToMatrix4f(Some(l)).value;
    assert 4 * (i / 4) + i % 4 == i;
    assert At(m, i / 4, i % 4) == Slots(m)[i];
  }

  /** Storing a matrix's slots and converting them back gives the same matrix. */
  lemma ListToMatrix4fOfSlots(m: Matrix4f)
    ensures ListToMatrix4f(Some(Slots(m))) == Success(m)
  {
  }

  /** The scale list is used only when it is present and has three entries. */
  predicate HasThree(l: Option<seq<real>>)
  {
    l.Some? && |l.value| == 3
  }

  /**
   * defaultTransformToMatrix4f, step by step as the source does it: start
   * from the identity, then scale, then rotate about Y, X and Z, then
   * translate, skipping each step whose data is absent or malformed.
   */
  function DefaultTransformToMatrix4f(dt: Option<DefaultTransform>, trig: Trig): (m: Matrix4f)
  {
    if dt.None? then Identity()
    else
      var d := dt.value;
      var m0 := Identity();
      var m1 := if HasThree(d.scale) then
                  Mul(m0, Scaling(d.scale.value[0], d.scale.value[1], d.scale.value[2]))
                else m0;
      var m2 := if d.rotation.Some? then
                  var rot := d.rotation.value;
                  var my := Mul(m1, RotationY(trig.sin(rot.y), trig.cos(rot.y)));
                  var mx := Mul(my, RotationX(trig.sin(rot.x), trig.cos(rot.x)));
                  Mul(mx, RotationZ(trig.sin(rot.z), trig.cos(rot.z)))
                else m1;
      var m3 := if HasThree(d.position) then
                  Mul(m2, Translation(d.position.value[0], d.position.value[1], d.position.value[2]))
                else m2;
      m3
  }

  /** The scaling factor a transform contributes: the identity when the step is skipped. */
  function ScaleFactor(d: DefaultTransform): (s: Matrix4f)
    ensures !HasThree(d.scale) ==> s == Identity()
    ensures HasThree(d.scale) ==> s.m00 == d.scale.value[0] && s.m11 == d.scale.value[1] && s.m22 == d.scale.value[2]
  {
    if HasThree(d.scale) then Scaling(d.scale.value[0], d.scale.value[1], d.scale.value[2])
    else Identity()
  }

  /** The rotation factor a transform contributes: Ry * Rx * Rz, or the identity when absent. */
  function RotationFactor(d: DefaultTransform, trig: Trig): (r: Matrix4f)
    ensures d.rotation.None? ==> r == Identity()
  {
    if d.rotation.None? then Identity()
    else
      var rot := d.rotation.value;
      Mul(Mul(RotationY(trig.sin(rot.y), trig.cos(rot.y)), RotationX(trig.sin(rot.x), trig.cos(rot.x))),
          RotationZ(trig.sin(rot.z), trig.cos(rot.z)))
  }

  /** The translation factor a transform contributes: the identity when the step is skipped. */
  function TranslationFactor(d: DefaultTransform): (t: Matrix4f)
    ensures !HasThree(d.position) ==> t == Identity()
    ensures HasThree(d.position) ==> t.m30 == d.position.value[0] && t.m31 == d.position.value[1] && t.m32 == d.position.value[2]
  {
    if HasThree(d.position) then Translation(d.position.value[0], d.position.value[1], d.position.value[2])
    else Identity()
  }

  /**
   * JOML's `scale(x, y, z)` post-multiplies by the scaling: columns 0 to 2
   * of the receiver are multiplied by x, y and z, and column 3 is kept.
   */
  lemma ScaleScalesColumns(m: Matrix4f, d: DefaultTransform)
    requires HasThree(d.scale)
    ensures forall c, r :: 0 <= c < 3 && 0 <= r < 4 ==>
      At(Mul(m, ScaleFactor(d)), c, r) == At(m, c, r) * d.scale.value[c]
    ensures forall r :: 0 <= r < 4 ==> At(Mul(m, ScaleFactor(d)), 3, r) == At(m, 3, r)
  {
  }

  /**
   * JOML's `translate(x, y, z)` post-multiplies by the translation: columns
   * 0 to 2 are kept and column 3 becomes m * (x, y, z, 1).
   */
  lemma TranslateMovesColumnThree(m: Matrix4f, d: DefaultTransform)
    requires HasThree(d.position)
    ensures forall c, r :: 0 <= c < 3 && 0 <= r < 4 ==> At(Mul(m, TranslationFactor(d)), c, r) == At(m, c, r)
    ensures forall r :: 0 <= r < 4 ==>
      At(Mul(m, TranslationFactor(d)), 3, r)
      == At(m, 0, r) * d.position.value[0] + At(m, 1, r) * d.position.value[1]
       + At(m, 2, r) * d.position.value[2] + At(m, 3, r)
  {
  }

  /** JOML's `rotateX` keeps the x-axis column and the translation column of the receiver. */
  lemma RotateXKeepsAxis(m: Matrix4f, sin: real, cos: real)
    ensures forall r :: 0 <= r < 4 ==>
      At(Mul(m, RotationX(sin, cos)), 0, r) == At(m, 0, r) && At(Mul(m, RotationX(sin, cos)), 3, r) == At(m, 3, r)
  {
  }

  /** JOML's `rotateY` keeps the y-axis column and the translation column of the receiver. */
  lemma RotateYKeepsAxis(m: Matrix4f, sin: real, cos: real)
    ensures forall r :: 0 <= r < 4 ==>
      At(Mul(m, RotationY(sin, cos)), 1, r) == At(m, 1, r) && At(Mul(m, RotationY(sin, cos)), 3, r) == At(m, 3, r)
  {
  }

  /** JOML's `rotateZ` keeps the z-axis column and the translation column of the receiver. */
  lemma RotateZKeepsAxis(m: Matrix4f, sin: real, cos: real)
    ensures forall r :: 0 <= r < 4 ==>
      At(Mul(m, RotationZ(sin, cos)), 2, r) == At(m, 2, r) && At(Mul(m, RotationZ(sin, cos)), 3, r) == At(m, 3, r)
  {
  }

  /**
   * The rotation step is a rotation about the origin: whatever the angles,
   * its translation column is (0, 0, 0, 1) and its bottom row (0, 0, 0, 1).
   */
  lemma RotationFactorFixesOrigin(d: DefaultTransform, trig: Trig)
    ensures var q := RotationFactor(d, trig);
      q.m30 == 0.0 && q.m31 == 0.0 && q.m32 == 0.0 && q.m33 == 1.0 &&
      q.m03 == 0.0 && q.m13 == 0.0 && q.m23 == 0.0
  {
  }

  /**
   * The order the source documents: the result is S * R * T (scale, then
   * rotate, then translate, applied to a column vector from the right),
   * with each skipped step contributing the identity.
   */
  lemma DefaultTransformIsScaleRotateTranslate(d: DefaultTransform, trig: Trig)
    ensures DefaultTransformToMatrix4f(Some(d), trig)
         == Mul(Mul(ScaleFactor(d), RotationFactor(d, trig)), TranslationFactor(d))
  {
    var s := ScaleFactor(d);
    var r := RotationFactor(d, trig);
    var t := TranslationFactor(d);
    MulIdentityLeft(s);
    var m1 := Mul(Identity(), s);
    assert m1 == s;
    var m2 := if d.rotation.Some? then
                var rot := d.rotation.value;
                Mul(Mul(Mul(m1, RotationY(trig.sin(rot.y), trig.cos(rot.y))),
                        RotationX(trig.sin(rot.x), trig.cos(rot.x))),
                    RotationZ(trig.sin(rot.z), trig.cos(rot.z)))
              else m1;
    if d.rotation.Some? {
      var rot := d.rotation.value;
      var ry := RotationY(trig.sin(rot.y), trig.cos(rot.y));
      var rx := RotationX(trig.sin(rot.x), trig.cos(rot.x));
      var rz := RotationZ(trig.sin(rot.z), trig.cos(rot.z));
      MulAssociative(s, ry, rx);
      MulAssociative(s, Mul(ry, rx), rz);
      assert m2 == Mul(s, r);
    } else {
      MulIdentityRight(s);
      assert m2 == Mul(s, r);
    }
    if !HasThree(d.position) {
      MulIdentityRight(Mul(s, r));
    }
  }

  /** A null default transform, or one whose every part is absent or malformed, is the identity. */
  lemma DefaultTransformOfNothingIsIdentity(dt: Option<DefaultTransform>, trig: Trig)
    requires dt.Some? ==> !HasThree(dt.value.scale) && dt.value.rotation.None? && !HasThree(dt.value.position)
    ensures DefaultTransformToMatrix4f(dt, trig) == Identity()
  {
    if dt.Some? {
      DefaultTransformIsScaleRotateTranslate(dt.value, trig);
      MulIdentityLeft(Identity());
    }
  }

  /**
   * Without a rotation the translation is applied after the scale in the
   * chain, so the stored offset is the position scaled component-wise.
   */
  lemma ScaledTranslation(d: DefaultTransform, trig: Trig)
    requires HasThree(d.scale) && d.rotation.None? && HasThree(d.position)
    ensures var m := DefaultTransformToMatrix4f(Some(d), trig);
      m.m00 == d.scale.value[0] && m.m11 == d.scale.value[1] && m.m22 == d.scale.value[2] &&
      m.m30 == d.scale.value[0] * d.position.value[0] &&
      m.m31 == d.scale.value[1] * d.position.value[1] &&
      m.m32 == d.scale.value[2] * d.position.value[2] &&
      m.m33 == 1.0
  {
    DefaultTransformIsScaleRotateTranslate(d, trig);
    MulIdentityRight(ScaleFactor(d));
  }

  /** A rotation whose three angles have sine 0 and cosine 1 leaves the chain unchanged. */
  lemma ZeroRotationIsIdentity(d: DefaultTransform, trig: Trig)
    requires d.rotation.Some?
    requires trig.sin(d.rotation.value.x) == 0.0 && trig.cos(d.rotation.value.x) == 1.0
    requires trig.sin(d.rotation.value.y) == 0.0 && trig.cos(d.rotation.value.y) == 1.0
    requires trig.sin(d.rotation.value.z) == 0.0 && trig.cos(d.rotation.value.z) == 1.0
    ensures DefaultTransformToMatrix4f(Some(d), trig)
         == DefaultTransformToMatrix4f(Some(d.(rotation := None)), trig)
  {
    DefaultTransformIsScaleRotateTranslate(d, trig);
    DefaultTransformIsScaleRotateTranslate(d.(rotation := None), trig);
    assert RotationFactor(d, trig) == Identity();
  }
}

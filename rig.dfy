/**
 * The scene the generator works on, reduced to its objects by name, and the
 * generator itself: the prechecks, then the curve and its controller, the
 * armature and its bones, the links, the name-matched bone parenting, the
 * spline-IK on the last bone, and the final object parenting.
 */
module Rig {
  import opened Wrappers
  import opened Geometry
  import opened Names
  import opened Guards
  import opened Layout

  datatype ObjKind = MeshObject | CurveObject | EmptyObject | ArmatureObject

  /** `obj.parent` together with `parent_type` and `parent_bone`. */
  datatype Parent = NoParent | ObjectParent(obj: string) | BoneParent(armature: string, bone: string)

  datatype YScaleMode = YNone | FitCurve | YBoneOriginal
  datatype XZScaleMode = XZNone | XZBoneOriginal | InversePreserve | VolumePreserve

  /** A spline-IK constraint: its name, target curve, chain length and the two scale modes. */
  datatype SplineIK = SplineIK(name: string, target: string, chainCount: nat,
                               yScaleMode: YScaleMode, xzScaleMode: XZScaleMode)

  /** A constraint on the pose bone of the given name. */
  datatype PoseConstraint = PoseConstraint(bone: string, ik: SplineIK)

  /**
   * An object of the scene: kind, location, parent, hidden flag, the data block it
   * uses (an identity; None for an empty), the object a hook modifier is bound to
   * (curves), bones and pose-bone constraints (armatures).
   */
  datatype Obj = Obj(kind: ObjKind, location: Point, parent: Parent, hidden: bool,
                     data: Option<nat>, hook: Option<string>,
                     bones: seq<Bone>, constraints: seq<PoseConstraint>)

  /** The objects the generator creates, by name. */
  datatype RigNames = RigNames(curve: string, controller: string, armature: string, links: seq<string>)

  /** `custom_object.copy()` with its own `data.copy()`, placed as link i. */
  function LinkCopy(template: Obj, i: nat, len: real, data: nat): Obj
  {
    template.(location := LinkLocation(i, len), hidden := false, data := Some(data))
  }

  /** `bone_name in armature.data.bones`. */
  predicate HasBone(bones: seq<Bone>, name: string)
  {
    exists j | 0 <= j < |bones| :: bones[j].name == name
  }

  /** One turn of the parenting loop, for link and bone i (counted from 0). */
  function BindStep(objs: map<string, Obj>, armature: string, prefix: string, i: nat): map<string, Obj>
    requires armature in objs
  {
    var boneName := BoneName(armature, i);
    var objectName := LinkName(prefix, i);
    if HasBone(objs[armature].bones, boneName) && objectName in objs
    then objs[objectName := objs[objectName].(parent := BoneParent(armature, boneName))]
    else objs
  }

  /** The first `count` turns of the parenting loop. Bones and data blocks stay as they are. */
  function BindAll(objs: map<string, Obj>, armature: string, prefix: string, count: nat): (r: map<string, Obj>)
    requires armature in objs
    ensures forall name :: name in objs ==> name in r && r[name].bones == objs[name].bones && r[name].data == objs[name].data
    decreases count
  {
    if count == 0 then objs
    else BindStep(BindAll(objs, armature, prefix, count - 1), armature, prefix, count - 1)
  }

  /** One turn of the parenting loop adds no object. */
  lemma BindStepKeys(objs: map<string, Obj>, armature: string, prefix: string, i: nat)
    requires armature in objs
    ensures forall name :: name in BindStep(objs, armature, prefix, i) ==> name in objs
  {
  }

  /** The parenting loop neither adds nor removes objects. */
  lemma {:induction false} BindAllKeys(objs: map<string, Obj>, armature: string, prefix: string, count: nat)
    requires armature in objs
    ensures forall name :: name in BindAll(objs, armature, prefix, count) ==> name in objs
  {
    if count > 0 {
      var before := BindAll(objs, armature, prefix, count - 1);
      BindAllKeys(objs, armature, prefix, count - 1);
      BindStepKeys(before, armature, prefix, count - 1);
    }
  }

  /** One turn leaves every object but link i as it is. */
  lemma BindStepElsewhere(objs: map<string, Obj>, armature: string, prefix: string, i: nat, name: string)
    requires armature in objs && name in objs
    requires name != LinkName(prefix, i) || !HasBone(objs[armature].bones, BoneName(armature, i))
    ensures BindStep(objs, armature, prefix, i)[name] == objs[name]
  {
  }

  /** An object no turn binds (its name is no link name, or that link's bone is missing) is left as it is. */
  lemma {:induction false} BindAllSkips(objs: map<string, Obj>, armature: string, prefix: string, count: nat, name: string)
    requires armature in objs && name in objs
    requires forall i :: 0 <= i < count && name == LinkName(prefix, i) ==>
               !HasBone(objs[armature].bones, BoneName(armature, i))
    ensures BindAll(objs, armature, prefix, count)[name] == objs[name]
  {
    if count > 0 {
      var before := BindAll(objs, armature, prefix, count - 1);
      assert before[armature].bones == objs[armature].bones;
      calc {
        BindAll(objs, armature, prefix, count)[name];
        BindStep(before, armature, prefix, count - 1)[name];
        { BindStepElsewhere(before, armature, prefix, count - 1, name); }
        before[name];
        { BindAllSkips(objs, armature, prefix, count - 1, name); }
        objs[name];
      }
    }
  }

  /** Link i is bone-parented to bone i when both names exist, and nothing else of it changes. */
  lemma {:induction false} BindAllBinds(objs: map<string, Obj>, armature: string, prefix: string, count: nat, i: nat)
    requires armature in objs && i < count
    requires LinkName(prefix, i) in objs && HasBone(objs[armature].bones, BoneName(armature, i))
    ensures BindAll(objs, armature, prefix, count)[LinkName(prefix, i)] ==
              objs[LinkName(prefix, i)].(parent := BoneParent(armature, BoneName(armature, i)))
  {
    var before := BindAll(objs, armature, prefix, count - 1);
    var name := LinkName(prefix, i);
    if i < count - 1 {
      BindAllBinds(objs, armature, prefix, count - 1, i);
      LinkNamesDistinct(prefix, i, count - 1);
      BindStepElsewhere(before, armature, prefix, count - 1, name);
    } else {
      forall j | 0 <= j < count - 1
        ensures name != LinkName(prefix, j)
      {
        LinkNamesDistinct(prefix, i, j);
      }
      BindAllSkips(objs, armature, prefix, count - 1, name);
    }
  }

  /** `armature.pose.bones[-1]` gets the "Spline IK" constraint targeting the curve. */
  function WithSplineIK(arm: Obj, curve: string, linkCount: nat): Obj
    requires |arm.bones| > 0
  {
    var ik := SplineIK("Spline IK", curve, linkCount, YBoneOriginal, XZBoneOriginal);
    arm.(constraints := arm.constraints + [PoseConstraint(arm.bones[|arm.bones| - 1].name, ik)])
  }

  /**
   * On a freshly built chain the spline-IK sits on exactly one bone, the last; it targets
   * the curve with `chain_count == link_count`, keeps both scale modes at BONE_ORIGINAL,
   * and so acts on every bone of the chain.
   */
  lemma SplineIKOnLastBoneOnly(arm: Obj, armature: string, curve: string, linkCount: nat, len: real)
    requires IsBonePlan(arm.bones, armature, linkCount, len) && linkCount >= 1
    requires arm.constraints == []
    ensures var c := WithSplineIK(arm, curve, linkCount).constraints;
      && |c| == 1
      && c[0].ik == SplineIK("Spline IK", curve, linkCount, YBoneOriginal, XZBoneOriginal)
      && (forall j :: 0 <= j < linkCount ==> (c[0].bone == arm.bones[j].name <==> j == linkCount - 1))
    ensures ParentsPrecede(arm.bones)
    ensures var chain := IKChain(arm.bones, linkCount - 1, linkCount);
      forall b :: 0 <= b < linkCount ==> b in chain
  {
    BoneNamesUnique(arm.bones, armature, linkCount, len);
    IKCoversChain(arm.bones, armature, linkCount, len);
  }

  /** The chain's bones are all there for the parenting loop to find. */
  lemma PlannedBonesPresent(bones: seq<Bone>, armature: string, linkCount: nat, len: real)
    requires IsBonePlan(bones, armature, linkCount, len)
    ensures forall i :: 0 <= i < linkCount ==> HasBone(bones, BoneName(armature, i))
  {
    forall i | 0 <= i < linkCount
      ensures HasBone(bones, BoneName(armature, i))
    {
      assert bones[i].name == BoneName(armature, i);
    }
  }

  const Origin := Point(0.0, 0.0, 0.0)

  /** The curve object as created, its data block `data` and its hook bound to `controller`. */
  function CurveObj(data: nat, controller: string): Obj
  {
    Obj(CurveObject, Origin, NoParent, false, Some(data), Some(controller), [], [])
  }

  /** The controller: a single-arrow empty at the origin. */
  const ControllerObj := Obj(EmptyObject, Origin, NoParent, false, None, None, [], [])

  /** The armature object, before its bones are filled in. */
  function ArmatureObj(armY: real, data: nat): Obj
  {
    Obj(ArmatureObject, OnAxis(armY), NoParent, false, Some(data), None, [], [])
  }

  /** The template's Y extent, or None when no template is chosen. */
  function TemplateDimY(template: Option<string>, dimY: real): Option<real>
  {
    if template.Some? then Some(dimY) else None
  }

  /** The names the run chose: `get_unique_name` for the three objects, Blender's renaming for the links. */
  ghost predicate RigNamed(objs0: map<string, Obj>, linkCount: nat, r: RigNames)
  {
    && IsUniqueName(CurveBase, objs0.Keys, r.curve)
    && IsUniqueName(ControllerBase, objs0.Keys + {r.curve}, r.controller)
    && IsUniqueName(ArmatureBase, objs0.Keys + {r.curve, r.controller}, r.armature)
    && |r.links| == linkCount
    && (forall i :: 0 <= i < linkCount ==>
          IsUniqueName(LinkName(LinkPrefix(r.armature), i),
                       Taken(objs0.Keys + {r.curve, r.controller, r.armature}, r.links[..i]), r.links[i]))
  }

  /** The objects the run made, and no others. */
  ghost predicate RigKeys(objs0: map<string, Obj>, objs: map<string, Obj>, r: RigNames)
  {
    forall name :: name in objs <==>
      name in objs0 || name == r.curve || name == r.controller || name == r.armature || name in r.links
  }

  /** The curve, controller and armature as the run leaves them. */
  ghost predicate RigParts(objs: map<string, Obj>, data0: nat, len: real, armY: real, linkCount: nat, r: RigNames)
  {
    && linkCount >= 1 && r.curve in objs && r.controller in objs && r.armature in objs
    && objs[r.curve] == CurveObj(data0, r.controller).(parent := ObjectParent(r.armature))
    && objs[r.controller] == ControllerObj.(parent := ObjectParent(r.curve))
    && objs[r.armature].(bones := []) ==
         ArmatureObj(armY, data0 + 1).(constraints :=
           [PoseConstraint(BoneName(r.armature, linkCount - 1),
                           SplineIK("Spline IK", r.curve, linkCount, YBoneOriginal, XZBoneOriginal))])
    && IsBonePlan(objs[r.armature].bones, r.armature, linkCount, len)
  }

  /**
   * Link i: a copy of the template with data block `data0 + 2 + i`, bone-parented to bone i
   * if it got its planned name and left with the template's parent otherwise.
   */
  ghost predicate RigLinks(objs0: map<string, Obj>, objs: map<string, Obj>, template: string,
                           data0: nat, len: real, linkCount: nat, r: RigNames)
    requires template in objs0 && |r.links| == linkCount
  {
    forall i :: 0 <= i < linkCount ==>
      r.links[i] in objs &&
      objs[r.links[i]] == LinkCopy(objs0[template], i, len, data0 + 2 + i).(parent :=
        if r.links[i] == LinkName(LinkPrefix(r.armature), i) then BoneParent(r.armature, BoneName(r.armature, i))
        else objs0[template].parent)
  }

  /**
   * An object that was there before is as it was, except that the template is hidden and
   * one that bears the planned name of link i is bone-parented to bone i.
   */
  ghost predicate RigKept(objs0: map<string, Obj>, objs: map<string, Obj>, template: string, linkCount: nat, r: RigNames)
  {
    var prefix := LinkPrefix(r.armature);
    && (forall name :: name in objs0 && name in objs && (forall i :: 0 <= i < linkCount ==> name != LinkName(prefix, i)) ==>
          objs[name] == objs0[name].(hidden := objs0[name].hidden || name == template))
    && (forall i :: 0 <= i < linkCount && LinkName(prefix, i) in objs0 && LinkName(prefix, i) in objs ==>
          objs[LinkName(prefix, i)] ==
            objs0[LinkName(prefix, i)].(hidden := objs0[LinkName(prefix, i)].hidden || LinkName(prefix, i) == template,
                                        parent := BoneParent(r.armature, BoneName(r.armature, i))))
  }

  /**
   * The scene `objs` a successful run leaves behind, from the scene `objs0` with next data
   * block `data0`, for the template `template`, bone length `len`, armature y `armY` and
   * `linkCount` links: the names of `RigNamed`, the objects of `RigKeys`, the curve,
   * controller and armature of `RigParts`, the links of `RigLinks`, the earlier objects
   * of `RigKept`, and `linkCount + 2` data blocks used (the curve's, the armature's and
   * one per link).
   */
  ghost predicate IsRig(objs0: map<string, Obj>, data0: nat, objs: map<string, Obj>, nextData: nat,
                        template: string, len: real, armY: real, linkCount: nat, r: RigNames)
    requires template in objs0
  {
    && RigNamed(objs0, linkCount, r)
    && RigKeys(objs0, objs, r)
    && nextData == data0 + 2 + linkCount
    && RigParts(objs, data0, len, armY, linkCount, r)
    && RigLinks(objs0, objs, template, data0, len, linkCount, r)
    && RigKept(objs0, objs, template, linkCount, r)
  }

  /** The names taken once `links` have been added to the names in `keys`. */
  ghost function Taken(keys: set<string>, links: seq<string>): set<string>
  {
    keys + set l | l in links
  }

  /**
   * The names of a run of links, made against the names in `keys`: every link has a name
   * of its own, chosen against the names taken before it, and none ends up under another
   * link's planned name.
   */
  ghost predicate LinkRunNamed(keys: set<string>, links: seq<string>, prefix: string)
  {
    && (forall i :: 0 <= i < |links| ==> IsUniqueName(LinkName(prefix, i), Taken(keys, links[..i]), links[i]))
    && (forall i, j :: 0 <= i < j < |links| ==> links[i] != links[j])
    && (forall i, m :: 0 <= i < |links| && m != i ==> links[i] != LinkName(prefix, m))
    && (forall i :: 0 <= i < |links| && links[i] != LinkName(prefix, i) ==> forall m :: links[i] != LinkName(prefix, m))
  }

  /**
   * The objects of a run of links, from the objects `objs0` and the data block `data0`:
   * each link is a new, placed copy of `source` with a fresh data block, and the
   * objects there before are untouched.
   */
  ghost predicate LinkRunMade(objs0: map<string, Obj>, objs: map<string, Obj>, links: seq<string>,
                              source: Obj, len: real, data0: nat)
  {
    && (forall name :: name in objs <==> name in objs0 || name in links)
    && (forall i :: 0 <= i < |links| ==> links[i] !in objs0)
    && (forall i :: 0 <= i < |links| ==> objs[links[i]] == LinkCopy(source, i, len, data0 + i))
    && (forall name :: name in objs0 ==> objs[name] == objs0[name])
  }

  /** What the duplication loop has done once it has made `links` from `source`. */
  ghost predicate IsLinkRun(objs0: map<string, Obj>, objs: map<string, Obj>, links: seq<string>,
                            source: Obj, prefix: string, len: real, data0: nat)
  {
    LinkRunNamed(objs0.Keys, links, prefix) && LinkRunMade(objs0, objs, links, source, len, data0)
  }

  /** During the run the names taken are those there before and the links made so far. */
  lemma LinkRunTaken(objs0: map<string, Obj>, objs: map<string, Obj>, links: seq<string>,
                     source: Obj, prefix: string, len: real, data0: nat)
    requires IsLinkRun(objs0, objs, links, source, prefix, len, data0)
    ensures objs.Keys == Taken(objs0.Keys, links[..|links|])
  {
    assert links[..|links|] == links;
  }

  /** Each name of a longer run was still chosen against the names taken before it. */
  lemma UniqueNamesExtend(keys: set<string>, links: seq<string>, prefix: string, name: string)
    requires forall i :: 0 <= i < |links| ==> IsUniqueName(LinkName(prefix, i), Taken(keys, links[..i]), links[i])
    requires IsUniqueName(LinkName(prefix, |links|), Taken(keys, links), name)
    ensures var links' := links + [name];
      forall i :: 0 <= i < |links'| ==> IsUniqueName(LinkName(prefix, i), Taken(keys, links'[..i]), links'[i])
  {
    var links' := links + [name];
    forall i | 0 <= i < |links'|
      ensures IsUniqueName(LinkName(prefix, i), Taken(keys, links'[..i]), links'[i])
    {
      if i < |links| {
        assert links'[..i] == links[..i];
      } else {
        assert links'[..i] == links;
      }
    }
  }

  /** One more name, chosen against the names taken so far, keeps the names of the run what they are. */
  lemma LinkRunNamedStep(keys: set<string>, links: seq<string>, prefix: string, name: string)
    requires LinkRunNamed(keys, links, prefix)
    requires IsUniqueName(LinkName(prefix, |links|), Taken(keys, links), name)
    requires forall m :: m != |links| ==> name != LinkName(prefix, m)
    requires name != LinkName(prefix, |links|) ==> forall m :: name != LinkName(prefix, m)
    ensures LinkRunNamed(keys, links + [name], prefix)
  {
    var links' := links + [name];
    UniqueNamesExtend(keys, links, prefix, name);
    forall i | 0 <= i < |links|
      ensures links'[i] == links[i] != name
    {
      assert links[i] in Taken(keys, links);
    }
  }

  /** One more copy, under a free name, keeps the objects of the run what they are. */
  lemma LinkRunMadeStep(objs0: map<string, Obj>, objs: map<string, Obj>, links: seq<string>,
                        source: Obj, len: real, data0: nat, name: string, copy: Obj, objs': map<string, Obj>)
    requires LinkRunMade(objs0, objs, links, source, len, data0)
    requires name !in objs
    requires objs' == objs[name := copy] && copy == LinkCopy(source, |links|, len, data0 + |links|)
    ensures LinkRunMade(objs0, objs', links + [name], source, len, data0)
  {
    forall i | 0 <= i < |links|
      ensures links[i] != name
    {
      assert links[i] in objs;
    }
    forall x | x in objs0
      ensures objs'[x] == objs0[x]
    {
      assert x in objs;
    }
  }

  /** One more link, made by `AddLink`, keeps the run what it says. */
  lemma LinkRunStep(objs0: map<string, Obj>, objs: map<string, Obj>, links: seq<string>,
                    source: Obj, prefix: string, len: real, data0: nat, name: string, copy: Obj,
                    objs': map<string, Obj>)
    requires IsLinkRun(objs0, objs, links, source, prefix, len, data0)
    requires IsUniqueName(LinkName(prefix, |links|), objs.Keys, name)
    requires objs' == objs[name := copy] && copy == LinkCopy(source, |links|, len, data0 + |links|)
    requires forall m :: m != |links| ==> name != LinkName(prefix, m)
    requires name != LinkName(prefix, |links|) ==> forall m :: name != LinkName(prefix, m)
    ensures IsLinkRun(objs0, objs', links + [name], source, prefix, len, data0)
  {
    LinkRunTaken(objs0, objs, links, source, prefix, len, data0);
    assert links[..|links|] == links;
    LinkRunNamedStep(objs0.Keys, links, prefix, name);
    LinkRunMadeStep(objs0, objs, links, source, len, data0, name, copy, objs');
  }

  /** On a planned chain the parenting loop binds every object that bears a link's planned name. */
  lemma BindPlanned(objs: map<string, Obj>, armature: string, prefix: string, n: nat, len: real, i: nat)
    requires armature in objs && IsBonePlan(objs[armature].bones, armature, n, len)
    requires i < n && LinkName(prefix, i) in objs
    ensures BindAll(objs, armature, prefix, n)[LinkName(prefix, i)] ==
              objs[LinkName(prefix, i)].(parent := BoneParent(armature, BoneName(armature, i)))
  {
    PlannedBonesPresent(objs[armature].bones, armature, n, len);
    BindAllBinds(objs, armature, prefix, n, i);
  }

  /**
   * The parenting loop run on the scene just after the links were made and the template
   * hidden: the curve, controller and armature stay as they are; each link is bound if it
   * got its planned name and keeps the template's parent otherwise; an object that was
   * there before is bound exactly when it bears a link's planned name.
   */
  lemma BindStage(objs0: map<string, Obj>, objs5: map<string, Obj>, template: string,
                  curve: string, controller: string, armature: string, links: seq<string>,
                  n: nat, len: real, data0: nat)
    requires NamedFrom(curve, CurveBase) && NamedFrom(controller, ControllerBase)
    requires NamedFrom(armature, ArmatureBase)
    requires template in objs0 && curve in objs5 && controller in objs5 && armature in objs5
    requires IsBonePlan(objs5[armature].bones, armature, n, len)
    requires forall name :: name in objs0 ==>
               name in objs5 && objs5[name] == objs0[name].(hidden := objs0[name].hidden || name == template)
    requires |links| == n
    requires forall i :: 0 <= i < n ==> links[i] in objs5 && objs5[links[i]] == LinkCopy(objs0[template], i, len, data0 + 2 + i)
    requires forall i, m :: 0 <= i < n && m != i ==> links[i] != LinkName(LinkPrefix(armature), m)
    requires forall i :: 0 <= i < n && links[i] != LinkName(LinkPrefix(armature), i) ==>
               forall m :: links[i] != LinkName(LinkPrefix(armature), m)
    ensures var objs6 := BindAll(objs5, armature, LinkPrefix(armature), n);
      && objs6[curve] == objs5[curve] && objs6[controller] == objs5[controller] && objs6[armature] == objs5[armature]
    ensures var objs6 := BindAll(objs5, armature, LinkPrefix(armature), n);
      RigLinks(objs0, objs6, template, data0, len, n, RigNames(curve, controller, armature, links))
    ensures var objs6 := BindAll(objs5, armature, LinkPrefix(armature), n);
      RigKept(objs0, objs6, template, n, RigNames(curve, controller, armature, links))
  {
    var prefix := LinkPrefix(armature);
    forall i | 0 <= i < n
      ensures curve != LinkName(prefix, i) && controller != LinkName(prefix, i) && armature != LinkName(prefix, i)
    {
      GeneratedNamesAreNoLinkNames(curve, controller, armature, i);
    }
    BindAllSkips(objs5, armature, prefix, n, curve);
    BindAllSkips(objs5, armature, prefix, n, controller);
    BindAllSkips(objs5, armature, prefix, n, armature);
    forall i | 0 <= i < n
      ensures BindAll(objs5, armature, prefix, n)[links[i]] ==
        LinkCopy(objs0[template], i, len, data0 + 2 + i).(parent :=
          if links[i] == LinkName(prefix, i) then BoneParent(armature, BoneName(armature, i)) else objs0[template].parent)
    {
      if links[i] == LinkName(prefix, i) {
        BindPlanned(objs5, armature, prefix, n, len, i);
      } else {
        BindAllSkips(objs5, armature, prefix, n, links[i]);
      }
    }
    forall name | name in objs0 && (forall i :: 0 <= i < n ==> name != LinkName(prefix, i))
      ensures BindAll(objs5, armature, prefix, n)[name] == objs0[name].(hidden := objs0[name].hidden || name == template)
    {
      BindAllSkips(objs5, armature, prefix, n, name);
    }
    forall i | 0 <= i < n && LinkName(prefix, i) in objs0
      ensures BindAll(objs5, armature, prefix, n)[LinkName(prefix, i)] ==
        objs0[LinkName(prefix, i)].(hidden := objs0[LinkName(prefix, i)].hidden || LinkName(prefix, i) == template,
                                    parent := BoneParent(armature, BoneName(armature, i)))
    {
      BindPlanned(objs5, armature, prefix, n, len, i);
    }
  }

  /**
   * The scene once the curve, controller and armature are in: those three names are new
   * and distinct, and nothing else changed.
   */
  lemma CreatedStage(objs0: map<string, Obj>, data0: nat, curve: string, controller: string, armature: string,
                     armY: real, objs2: map<string, Obj>, objs3: map<string, Obj>)
    requires IsUniqueName(CurveBase, objs0.Keys, curve)
    requires IsUniqueName(ControllerBase, objs0.Keys + {curve}, controller)
    requires objs2 == objs0[curve := CurveObj(data0, controller)][controller := ControllerObj]
    requires IsUniqueName(ArmatureBase, objs2.Keys, armature)
    requires objs3.Keys == objs2.Keys + {armature}
    requires forall name :: name in objs2 ==> objs3[name] == objs2[name]
    ensures objs2.Keys == objs0.Keys + {curve, controller}
    ensures objs3.Keys == objs0.Keys + {curve, controller, armature}
    ensures curve !in objs0 && controller !in objs0 && armature !in objs0
    ensures curve != controller && curve != armature && controller != armature
    ensures NamedFrom(curve, CurveBase) && NamedFrom(controller, ControllerBase) && NamedFrom(armature, ArmatureBase)
    ensures objs3[curve] == CurveObj(data0, controller) && objs3[controller] == ControllerObj
    ensures forall name :: name in objs0 ==> objs3[name] == objs0[name]
  {
    UniqueNameExtendsBase(CurveBase, objs0.Keys, curve);
    UniqueNameExtendsBase(ControllerBase, objs0.Keys + {curve}, controller);
    UniqueNameExtendsBase(ArmatureBase, objs2.Keys, armature);
    assert objs2.Keys == objs0.Keys + {curve, controller};
    forall name | name in objs0
      ensures objs3[name] == objs0[name]
    {
      assert name in objs2 && name != curve && name != controller;
    }
  }

  /**
   * The scene once the links are made and the template hidden: what was there before is
   * as it was but for the hidden template; the curve, controller and armature are as made;
   * link i is the placed copy of the template.
   */
  lemma HiddenStage(objs0: map<string, Obj>, data0: nat, template: string, created: set<string>,
                    objs3: map<string, Obj>, objs4: map<string, Obj>, objs5: map<string, Obj>,
                    links: seq<string>, prefix: string, len: real)
    requires template in objs0
    requires objs3.Keys == objs0.Keys + created && objs0.Keys !! created
    requires forall name :: name in objs0 ==> objs3[name] == objs0[name]
    requires IsLinkRun(objs3, objs4, links, objs3[template], prefix, len, data0 + 2)
    requires objs5 == objs4[template := objs4[template].(hidden := true)]
    ensures forall name :: name in objs5 <==> name in objs0 || name in created || name in links
    ensures forall name :: name in objs0 ==>
              name in objs5 && objs5[name] == objs0[name].(hidden := objs0[name].hidden || name == template)
    ensures forall name :: name in created ==> name in objs5 && objs5[name] == objs3[name]
    ensures forall i :: 0 <= i < |links| ==>
              links[i] in objs5 && objs5[links[i]] == LinkCopy(objs0[template], i, len, data0 + 2 + i)
  {
    forall i | 0 <= i < |links|
      ensures links[i] in objs5 && objs5[links[i]] == LinkCopy(objs0[template], i, len, data0 + 2 + i)
    {
      assert links[i] !in objs3;
    }
  }

  /** The first steps of `Generate`: `objs2` with the curve and the controller, `objs3` with the armature. */
  ghost predicate CreatedSteps(objs0: map<string, Obj>, data0: nat, curve: string, controller: string, armature: string,
                               n: nat, len: real, armY: real, objs2: map<string, Obj>, objs3: map<string, Obj>)
  {
    && IsUniqueName(CurveBase, objs0.Keys, curve)
    && IsUniqueName(ControllerBase, objs0.Keys + {curve}, controller)
    && objs2 == objs0[curve := CurveObj(data0, controller)][controller := ControllerObj]
    && IsUniqueName(ArmatureBase, objs2.Keys, armature)
    && objs3.Keys == objs2.Keys + {armature}
    && (forall name :: name in objs2 ==> objs3[name] == objs2[name])
    && armature in objs3 && objs3[armature].(bones := []) == ArmatureObj(armY, data0 + 1)
    && IsBonePlan(objs3[armature].bones, armature, n, len)
  }

  /** From `objs3`: `objs4` with the links (data blocks from `linkData` on), `objs5` with the template hidden. */
  ghost predicate LinkSteps(objs3: map<string, Obj>, linkData: nat, template: string, armature: string,
                            links: seq<string>, n: nat, len: real, objs4: map<string, Obj>, objs5: map<string, Obj>)
  {
    && template in objs3 && |links| == n
    && IsLinkRun(objs3, objs4, links, objs3[template], LinkPrefix(armature), len, linkData)
    && template in objs4 && objs5 == objs4[template := objs4[template].(hidden := true)]
  }

  /** From `objs5`: `objs6` after the parenting loop, `objs7` with the spline-IK, `objs8` and `objs9` after the two object parents. */
  ghost predicate BoundSteps(objs5: map<string, Obj>, curve: string, controller: string, armature: string, n: nat,
                             objs6: map<string, Obj>, objs7: map<string, Obj>, objs8: map<string, Obj>, objs9: map<string, Obj>)
  {
    && armature in objs5 && objs6 == BindAll(objs5, armature, LinkPrefix(armature), n)
    && armature in objs6 && |objs6[armature].bones| > 0
    && objs7 == objs6[armature := WithSplineIK(objs6[armature], curve, n)]
    && controller in objs7 && objs8 == objs7[controller := objs7[controller].(parent := ObjectParent(curve))]
    && curve in objs8 && objs9 == objs8[curve := objs8[curve].(parent := ObjectParent(armature))]
  }

  /** The states the steps of `Generate` go through. */
  ghost predicate GenerateSteps(objs0: map<string, Obj>, data0: nat, template: string,
                                curve: string, controller: string, armature: string, links: seq<string>,
                                n: nat, len: real, armY: real,
                                objs2: map<string, Obj>, objs3: map<string, Obj>, objs4: map<string, Obj>,
                                objs5: map<string, Obj>, objs6: map<string, Obj>, objs7: map<string, Obj>,
                                objs8: map<string, Obj>, objs9: map<string, Obj>)
  {
    && template in objs0 && n >= 1
    && CreatedSteps(objs0, data0, curve, controller, armature, n, len, armY, objs2, objs3)
    && LinkSteps(objs3, data0 + 2, template, armature, links, n, len, objs4, objs5)
    && BoundSteps(objs5, curve, controller, armature, n, objs6, objs7, objs8, objs9)
  }

  /** The parenting loop leaves the objects of the run as they are: the ones before, the three new ones and the links. */
  lemma BoundKeys(objs0: map<string, Obj>, objs5: map<string, Obj>, objs6: map<string, Obj>,
                  curve: string, controller: string, armature: string, links: seq<string>, n: nat)
    requires forall name :: name in objs5 <==> name in objs0 || name in {curve, controller, armature} || name in links
    requires armature in objs5 && objs6 == BindAll(objs5, armature, LinkPrefix(armature), n)
    ensures forall name :: name in objs6 <==>
              name in objs0 || name == curve || name == controller || name == armature || name in links
  {
    BindAllKeys(objs5, armature, LinkPrefix(armature), n);
  }

  /** The last three steps change the armature, the controller and the curve, and nothing else. */
  lemma FinalUpdates(objs6: map<string, Obj>, objs7: map<string, Obj>, objs8: map<string, Obj>, objs9: map<string, Obj>,
                     curve: string, controller: string, armature: string, n: nat)
    requires curve != controller && curve != armature && controller != armature
    requires armature in objs6 && |objs6[armature].bones| > 0
    requires objs7 == objs6[armature := WithSplineIK(objs6[armature], curve, n)]
    requires controller in objs7 && objs8 == objs7[controller := objs7[controller].(parent := ObjectParent(curve))]
    requires curve in objs8 && objs9 == objs8[curve := objs8[curve].(parent := ObjectParent(armature))]
    ensures forall name :: name in objs9 <==> name in objs6
    ensures forall name :: name in objs6 && name != curve && name != controller && name != armature ==>
              objs9[name] == objs6[name]
    ensures objs9[curve] == objs6[curve].(parent := ObjectParent(armature))
    ensures objs9[controller] == objs6[controller].(parent := ObjectParent(curve))
    ensures objs9[armature] == WithSplineIK(objs6[armature], curve, n)
  {
  }

  /** The names of a run: the links' names were chosen against the three new objects too. */
  lemma NamedStage(objs0: map<string, Obj>, objs2: map<string, Obj>, objs3: map<string, Obj>, objs4: map<string, Obj>,
                   source: Obj, n: nat, len: real, data0: nat, r: RigNames)
    requires IsUniqueName(CurveBase, objs0.Keys, r.curve)
    requires IsUniqueName(ControllerBase, objs0.Keys + {r.curve}, r.controller)
    requires objs2.Keys == objs0.Keys + {r.curve, r.controller}
    requires IsUniqueName(ArmatureBase, objs2.Keys, r.armature)
    requires objs3.Keys == objs2.Keys + {r.armature} && |r.links| == n
    requires IsLinkRun(objs3, objs4, r.links, source, LinkPrefix(r.armature), len, data0)
    ensures RigNamed(objs0, n, r)
  {
    assert objs3.Keys == objs0.Keys + {r.curve, r.controller, r.armature};
  }

  /** The earlier objects at the end of a run: the last three steps touch none of them. */
  lemma KeptStage(objs0: map<string, Obj>, objs6: map<string, Obj>, objs9: map<string, Obj>,
                  template: string, n: nat, r: RigNames)
    requires r.curve !in objs0 && r.controller !in objs0 && r.armature !in objs0
    requires RigKept(objs0, objs6, template, n, r)
    requires forall name :: name in objs9 <==> name in objs6
    requires forall name :: name in objs6 && name != r.curve && name != r.controller && name != r.armature ==>
               objs9[name] == objs6[name]
    ensures RigKept(objs0, objs9, template, n, r)
  {
  }

  /** The links at the end of a run: the last three steps touch none of them. */
  lemma LinksStage(objs0: map<string, Obj>, objs6: map<string, Obj>, objs9: map<string, Obj>,
                   template: string, data0: nat, len: real, n: nat, r: RigNames)
    requires template in objs0 && |r.links| == n
    requires forall i :: 0 <= i < n ==> r.links[i] != r.curve && r.links[i] != r.controller && r.links[i] != r.armature
    requires RigLinks(objs0, objs6, template, data0, len, n, r)
    requires forall name :: name in objs9 <==> name in objs6
    requires forall name :: name in objs6 && name != r.curve && name != r.controller && name != r.armature ==>
               objs9[name] == objs6[name]
    ensures RigLinks(objs0, objs9, template, data0, len, n, r)
  {
  }

  /** The curve, controller and armature at the end of a run. */
  lemma PartsStage(objs5: map<string, Obj>, objs6: map<string, Obj>, objs9: map<string, Obj>,
                   data0: nat, len: real, armY: real, n: nat, r: RigNames)
    requires r.curve in objs6 && r.controller in objs6 && r.armature in objs6 && r.armature in objs5
    requires objs6[r.curve] == CurveObj(data0, r.controller) && objs6[r.controller] == ControllerObj
    requires objs6[r.armature] == objs5[r.armature]
    requires objs5[r.armature].(bones := []) == ArmatureObj(armY, data0 + 1)
    requires IsBonePlan(objs5[r.armature].bones, r.armature, n, len) && n >= 1
    requires forall name :: name in objs9 <==> name in objs6
    requires objs9[r.curve] == objs6[r.curve].(parent := ObjectParent(r.armature))
    requires objs9[r.controller] == objs6[r.controller].(parent := ObjectParent(r.curve))
    requires objs9[r.armature] == WithSplineIK(objs6[r.armature], r.curve, n)
    ensures RigParts(objs9, data0, len, armY, n, r)
  {
    assert objs5[r.armature].bones[n - 1].name == BoneName(r.armature, n - 1);
  }

  /** The objects at the end of a run: the ones before, the three new ones and the links. */
  lemma KeysStage(objs0: map<string, Obj>, objs6: map<string, Obj>, objs9: map<string, Obj>, r: RigNames)
    requires forall name :: name in objs6 <==>
               name in objs0 || name == r.curve || name == r.controller || name == r.armature || name in r.links
    requires forall name :: name in objs9 <==> name in objs6
    ensures RigKeys(objs0, objs9, r)
  {
  }

  /**
   * What the scene is once the links are made and the template hidden, in terms of the
   * scene before the run: all the parenting loop and the last steps need to know.
   */
  ghost predicate HiddenFacts(objs0: map<string, Obj>, data0: nat, template: string,
                              curve: string, controller: string, armature: string, links: seq<string>,
                              n: nat, len: real, armY: real, objs5: map<string, Obj>)
  {
    && template in objs0 && n >= 1 && |links| == n
    && curve !in objs0 && controller !in objs0 && armature !in objs0
    && curve != controller && curve != armature && controller != armature
    && NamedFrom(curve, CurveBase) && NamedFrom(controller, ControllerBase) && NamedFrom(armature, ArmatureBase)
    && (forall name :: name in objs5 <==> name in objs0 || name in {curve, controller, armature} || name in links)
    && (forall name :: name in objs0 ==>
          name in objs5 && objs5[name] == objs0[name].(hidden := objs0[name].hidden || name == template))
    && curve in objs5 && controller in objs5 && armature in objs5
    && objs5[curve] == CurveObj(data0, controller) && objs5[controller] == ControllerObj
    && objs5[armature].(bones := []) == ArmatureObj(armY, data0 + 1)
    && IsBonePlan(objs5[armature].bones, armature, n, len)
    && (forall i :: 0 <= i < n ==> links[i] in objs5 && objs5[links[i]] == LinkCopy(objs0[template], i, len, data0 + 2 + i))
    && (forall i :: 0 <= i < n ==> links[i] != curve && links[i] != controller && links[i] != armature)
    && (forall i, m :: 0 <= i < n && m != i ==> links[i] != LinkName(LinkPrefix(armature), m))
    && (forall i :: 0 <= i < n && links[i] != LinkName(LinkPrefix(armature), i) ==>
          forall m :: links[i] != LinkName(LinkPrefix(armature), m))
  }

  /** The first steps of a run, up to the hidden template: the names it chose and the scene it leaves. */
  lemma HiddenRig(objs0: map<string, Obj>, data0: nat, template: string,
                  curve: string, controller: string, armature: string, links: seq<string>,
                  n: nat, len: real, armY: real,
                  objs2: map<string, Obj>, objs3: map<string, Obj>, objs4: map<string, Obj>, objs5: map<string, Obj>)
    requires template in objs0 && n >= 1
    requires CreatedSteps(objs0, data0, curve, controller, armature, n, len, armY, objs2, objs3)
    requires LinkSteps(objs3, data0 + 2, template, armature, links, n, len, objs4, objs5)
    ensures HiddenFacts(objs0, data0, template, curve, controller, armature, links, n, len, armY, objs5)
    ensures RigNamed(objs0, n, RigNames(curve, controller, armature, links))
  {
    CreatedStage(objs0, data0, curve, controller, armature, armY, objs2, objs3);
    HiddenStage(objs0, data0, template, {curve, controller, armature}, objs3, objs4, objs5, links, LinkPrefix(armature), len);
    NamedStage(objs0, objs2, objs3, objs4, objs3[template], n, len, data0 + 2, RigNames(curve, controller, armature, links));
    forall i | 0 <= i < n
      ensures links[i] != curve && links[i] != controller && links[i] != armature
    {
      assert links[i] !in objs3;
    }
  }

  /** The last steps of a run, from the hidden template on: the scene it leaves. */
  lemma BoundRig(objs0: map<string, Obj>, data0: nat, template: string,
                 curve: string, controller: string, armature: string, links: seq<string>,
                 n: nat, len: real, armY: real,
                 objs5: map<string, Obj>, objs6: map<string, Obj>, objs7: map<string, Obj>,
                 objs8: map<string, Obj>, objs9: map<string, Obj>)
    requires HiddenFacts(objs0, data0, template, curve, controller, armature, links, n, len, armY, objs5)
    requires BoundSteps(objs5, curve, controller, armature, n, objs6, objs7, objs8, objs9)
    ensures RigKeys(objs0, objs9, RigNames(curve, controller, armature, links))
    ensures RigParts(objs9, data0, len, armY, n, RigNames(curve, controller, armature, links))
    ensures RigLinks(objs0, objs9, template, data0, len, n, RigNames(curve, controller, armature, links))
    ensures RigKept(objs0, objs9, template, n, RigNames(curve, controller, armature, links))
  {
    var r := RigNames(curve, controller, armature, links);
    BindStage(objs0, objs5, template, curve, controller, armature, links, n, len, data0);
    BoundKeys(objs0, objs5, objs6, curve, controller, armature, links, n);
    FinalUpdates(objs6, objs7, objs8, objs9, curve, controller, armature, n);
    KeptStage(objs0, objs6, objs9, template, n, r);
    LinksStage(objs0, objs6, objs9, template, data0, len, n, r);
    PartsStage(objs5, objs6, objs9, data0, len, armY, n, r);
    KeysStage(objs0, objs6, objs9, r);
  }

  /**
   * Putting the stages together: the scene the steps of `Generate` leave behind is the
   * one `IsRig` describes.
   */
  lemma AssembleRig(objs0: map<string, Obj>, data0: nat, template: string,
                    curve: string, controller: string, armature: string, links: seq<string>,
                    n: nat, len: real, armY: real,
                    objs2: map<string, Obj>, objs3: map<string, Obj>, objs4: map<string, Obj>,
                    objs5: map<string, Obj>, objs6: map<string, Obj>, objs7: map<string, Obj>,
                    objs8: map<string, Obj>, objs9: map<string, Obj>)
    requires GenerateSteps(objs0, data0, template, curve, controller, armature, links, n, len, armY,
                           objs2, objs3, objs4, objs5, objs6, objs7, objs8, objs9)
    ensures IsRig(objs0, data0, objs9, data0 + 2 + n, template, len, armY, n, RigNames(curve, controller, armature, links))
  {
    HiddenRig(objs0, data0, template, curve, controller, armature, links, n, len, armY, objs2, objs3, objs4, objs5);
    BoundRig(objs0, data0, template, curve, controller, armature, links, n, len, armY, objs5, objs6, objs7, objs8, objs9);
  }

  /**
   * Each link has a data block of its own (`custom_object.data.copy()`): none shared with
   * another link, nor with any object there before the run.
   */
  lemma LinksHaveOwnData(objs0: map<string, Obj>, objs: map<string, Obj>, template: string,
                         data0: nat, len: real, n: nat, r: RigNames)
    requires forall name :: name in objs0 && objs0[name].data.Some? ==> objs0[name].data.value < data0
    requires template in objs0 && |r.links| == n
    requires RigLinks(objs0, objs, template, data0, len, n, r)
    ensures forall i :: 0 <= i < n ==> r.links[i] in objs && objs[r.links[i]].data.Some?
    ensures forall i, j :: 0 <= i < j < n ==> objs[r.links[i]].data != objs[r.links[j]].data
    ensures forall i, name :: 0 <= i < n && name in objs0 && objs0[name].data.Some? ==>
              objs[r.links[i]].data != objs0[name].data
  {
  }

  /**
   * How link i ends up: when its planned name `<prefix>_<i+1>` is free it gets that name and
   * is bound to bone i; when an object there before holds that name, the new link gets
   * another name and keeps the template's parent, and it is the older object that the
   * parenting loop binds to bone i.
   */
  lemma LinkNaming(objs0: map<string, Obj>, data0: nat, objs: map<string, Obj>, nextData: nat,
                   template: string, len: real, armY: real, n: nat, r: RigNames, i: nat)
    requires template in objs0 && i < n
    requires IsRig(objs0, data0, objs, nextData, template, len, armY, n, r)
    ensures var planned := LinkName(LinkPrefix(r.armature), i);
      planned !in Taken(objs0.Keys + {r.curve, r.controller, r.armature}, r.links[..i]) ==>
        r.links[i] == planned && objs[r.links[i]].parent == BoneParent(r.armature, BoneName(r.armature, i))
    ensures var planned := LinkName(LinkPrefix(r.armature), i);
      planned in objs0 ==>
        && r.links[i] != planned && objs[r.links[i]].parent == objs0[template].parent
        && planned in objs && objs[planned].parent == BoneParent(r.armature, BoneName(r.armature, i))
  {
    var planned := LinkName(LinkPrefix(r.armature), i);
    var taken := Taken(objs0.Keys + {r.curve, r.controller, r.armature}, r.links[..i]);
    assert IsUniqueName(planned, taken, r.links[i]);
    assert r.links[i] in objs;
    if planned in objs0 {
      assert planned in taken && r.links[i] !in taken;
      assert planned in objs;
    }
  }

  /** Updating a map at a, then at b, then at a again is updating it at a with the last value, and at b. */
  lemma UpdateTwice(m: map<string, Obj>, a: string, b: string, x: Obj, y: Obj, z: Obj)
    requires a != b
    ensures m[a := x][b := y][a := z] == m[a := z][b := y]
  {
  }

  /** The objects of the scene (`bpy.data.objects`), by name, and the next fresh data block. */
  class Scene {
    var objects: map<string, Obj>
    var nextData: nat

    /** Every data block in use was handed out before `nextData`. */
    ghost predicate Valid()
      reads this
    {
      forall name :: name in objects && objects[name].data.Some? ==> objects[name].data.value < nextData
    }

    constructor (objects: map<string, Obj>, nextData: nat)
      requires forall name :: name in objects && objects[name].data.Some? ==> objects[name].data.value < nextData
      ensures Valid() && this.objects == objects && this.nextData == nextData
    {
      this.objects := objects;
      this.nextData := nextData;
    }

    /** A new data block (a mesh, curve or armature data copy). */
    method NewData() returns (d: nat)
      requires Valid()
      modifies this
      ensures Valid()
      ensures d == old(nextData) && nextData == d + 1 && objects == old(objects)
    {
      d := nextData;
      nextData := nextData + 1;
    }

    /** A new object under a name the allocator or the host found free. */
    method AddObject(name: string, o: Obj)
      requires Valid() && name !in objects
      requires o.data.Some? ==> o.data.value < nextData
      modifies this
      ensures Valid()
      ensures objects == old(objects)[name := o] && nextData == old(nextData)
    {
      objects := objects[name := o];
    }

    /**
     * One turn of the duplication loop: a copy of the template with its own data block,
     * placed at `LinkLocation(i, len)` and named `<prefix>_<i+1>`, which Blender keeps when
     * free and otherwise turns into the first free `<prefix>_<i+1>.NNN`.
     */
    method AddLink(template: string, prefix: string, i: nat, len: real) returns (name: string)
      requires Valid() && template in objects
      modifies this
      ensures Valid()
      ensures IsUniqueName(LinkName(prefix, i), old(objects).Keys, name) && name !in old(objects)
      ensures objects == old(objects)[name := LinkCopy(old(objects)[template], i, len, old(nextData))]
      ensures nextData == old(nextData) + 1
      ensures forall m :: m != i ==> name != LinkName(prefix, m)
      ensures name != LinkName(prefix, i) ==> forall m :: name != LinkName(prefix, m)
    {
      var d := NewData();
      name := UniqueName(LinkName(prefix, i), objects.Keys);
      RenamedLinkName(prefix, i, objects.Keys, name);
      AddObject(name, LinkCopy(objects[template], i, len, d));
    }

    /**
     * The duplication loop: link i is made as `AddLink` describes, each name chosen
     * against the objects there before it, the earlier links included.
     */
    method DuplicateTemplate(template: string, prefix: string, linkCount: nat, len: real)
      returns (links: seq<string>)
      requires Valid() && template in objects
      modifies this
      ensures Valid()
      ensures |links| == linkCount && nextData == old(nextData) + linkCount
      ensures IsLinkRun(old(objects), objects, links, old(objects)[template], prefix, len, old(nextData))
    {
      var source := objects[template];
      links := [];
      for i := 0 to linkCount
        invariant Valid() && |links| == i && nextData == old(nextData) + i
        invariant IsLinkRun(old(objects), objects, links, source, prefix, len, old(nextData))
        invariant objects[template] == source
      {
        ghost var objs, d := objects, nextData;
        var name := AddLink(template, prefix, i, len);
        LinkRunStep(old(objects), objs, links, source, prefix, len, old(nextData), name,
                    LinkCopy(objs[template], i, len, d), objects);
        links := links + [name];
      }
    }

    /** `custom_object.hide_set(True)`. */
    method Hide(name: string)
      requires Valid() && name in objects
      modifies this
      ensures Valid()
      ensures objects == old(objects)[name := old(objects)[name].(hidden := true)] && nextData == old(nextData)
    {
      objects := objects[name := objects[name].(hidden := true)];
    }

    /** The parenting loop: for i in 1..link_count, bind the object `<prefix>_<i>` to the bone `<armature>_Bone<i>`. */
    method BindLinksToBones(armature: string, prefix: string, linkCount: nat)
      requires Valid() && armature in objects
      modifies this
      ensures Valid()
      ensures objects == BindAll(old(objects), armature, prefix, linkCount) && nextData == old(nextData)
    {
      var bonePrefix := armature + "_Bone";
      for i := 0 to linkCount
        invariant armature in objects && nextData == old(nextData)
        invariant objects == BindAll(old(objects), armature, prefix, i)
      {
        var boneName := bonePrefix + NatToString(i + 1);
        var objectName := prefix + "_" + NatToString(i + 1);
        assert boneName == BoneName(armature, i) && objectName == LinkName(prefix, i);
        ghost var before := objects;
        if HasBone(objects[armature].bones, boneName) && objectName in objects {
          objects := objects[objectName := objects[objectName].(parent := BoneParent(armature, boneName))];
        }
        assert objects == BindStep(before, armature, prefix, i);
      }
      assert Valid() by {
        BindAllKeys(old(objects), armature, prefix, linkCount);
      }
    }

    /** `modifiers["Hook"].object = controller` on the curve. */
    method SetHook(curve: string, controller: string)
      requires Valid() && curve in objects
      modifies this
      ensures Valid()
      ensures objects == old(objects)[curve := old(objects)[curve].(hook := Some(controller))]
      ensures nextData == old(nextData)
    {
      objects := objects[curve := objects[curve].(hook := Some(controller))];
    }

    /** Step 9: the spline-IK constraint on `armature.pose.bones[-1]`. */
    method AddSplineIK(armature: string, curve: string, linkCount: nat)
      requires Valid() && armature in objects && |objects[armature].bones| > 0
      modifies this
      ensures Valid()
      ensures objects == old(objects)[armature := WithSplineIK(old(objects)[armature], curve, linkCount)]
      ensures nextData == old(nextData)
    {
      objects := objects[armature := WithSplineIK(objects[armature], curve, linkCount)];
    }

    /** `parent_set(type='OBJECT', keep_transform=True)` with `parent` active and `child` selected. */
    method SetObjectParent(child: string, parent: string)
      requires Valid() && child in objects
      modifies this
      ensures Valid()
      ensures objects == old(objects)[child := old(objects)[child].(parent := ObjectParent(parent))]
      ensures nextData == old(nextData)
    {
      objects := objects[child := objects[child].(parent := ObjectParent(parent))];
    }

    /**
     * The curve ("U_Shape") and its controller ("Controller"), each under the name
     * `get_unique_name` gives when it is asked for, the curve's hook bound to the controller.
     */
    method AddCurveAndController() returns (curve: string, controller: string)
      requires Valid()
      modifies this
      ensures Valid()
      ensures IsUniqueName(CurveBase, old(objects).Keys, curve)
      ensures IsUniqueName(ControllerBase, old(objects).Keys + {curve}, controller)
      ensures objects == old(objects)[curve := CurveObj(old(nextData), controller)][controller := ControllerObj]
      ensures nextData == old(nextData) + 1
    {
      curve := UniqueName(CurveBase, objects.Keys);
      var curveData := NewData();
      var unhooked := CurveObj(curveData, "").(hook := None);
      AddObject(curve, unhooked);
      assert objects.Keys == old(objects).Keys + {curve};
      controller := UniqueName(ControllerBase, objects.Keys);
      AddObject(controller, ControllerObj);
      SetHook(curve, controller);
      UpdateTwice(old(objects), curve, controller, unhooked, ControllerObj, CurveObj(curveData, controller));
    }

    /** The armature ("EnergyChainArmature") at y `armY`, holding the chain of bones of length `len`. */
    method AddArmature(armY: real, linkCount: nat, len: real) returns (armature: string)
      requires Valid()
      modifies this
      ensures Valid()
      ensures IsUniqueName(ArmatureBase, old(objects).Keys, armature)
      ensures objects.Keys == old(objects).Keys + {armature}
      ensures forall name :: name in old(objects) ==> objects[name] == old(objects)[name]
      ensures objects[armature].(bones := []) == ArmatureObj(armY, old(nextData))
      ensures IsBonePlan(objects[armature].bones, armature, linkCount, len)
      ensures nextData == old(nextData) + 1
    {
      armature := UniqueName(ArmatureBase, objects.Keys);
      var bones := PlanBones(armature, linkCount, len);
      var armatureData := NewData();
      AddObject(armature, ArmatureObj(armY, armatureData).(bones := bones));
    }

    /** Steps 1 to 4 of `execute`: the curve, the controller, and the armature with its bones. */
    method AddCreated(linkCount: nat, len: real, armY: real)
      returns (curve: string, controller: string, armature: string, ghost objs2: map<string, Obj>)
      requires Valid()
      modifies this
      ensures Valid() && nextData == old(nextData) + 2
      ensures CreatedSteps(old(objects), old(nextData), curve, controller, armature, linkCount, len, armY, objs2, objects)
    {
      curve, controller := AddCurveAndController();
      objs2 := objects;
      armature := AddArmature(armY, linkCount, len);
    }

    /** Steps 5 to 10 of `execute`: the links, the hidden template, the parenting loop, the spline-IK and the parents. */
    method AddChain(template: string, curve: string, controller: string, armature: string, linkCount: nat, len: real)
      returns (links: seq<string>, ghost objs4: map<string, Obj>, ghost objs5: map<string, Obj>,
               ghost objs6: map<string, Obj>, ghost objs7: map<string, Obj>, ghost objs8: map<string, Obj>)
      requires Valid() && template in objects && curve in objects && controller in objects && armature in objects
      requires |objects[armature].bones| > 0
      modifies this
      ensures Valid() && nextData == old(nextData) + linkCount
      ensures LinkSteps(old(objects), old(nextData), template, armature, links, linkCount, len, objs4, objs5)
      ensures BoundSteps(objs5, curve, controller, armature, linkCount, objs6, objs7, objs8, objects)
    {
      var prefix := LinkPrefix(armature);
      links := DuplicateTemplate(template, prefix, linkCount, len);
      objs4 := objects;
      Hide(template);
      objs5 := objects;
      BindLinksToBones(armature, prefix, linkCount);
      objs6 := objects;
      AddSplineIK(armature, curve, linkCount);
      objs7 := objects;
      SetObjectParent(controller, curve);
      objs8 := objects;
      SetObjectParent(curve, armature);
    }

    /**
     * `execute`: the prechecks, then, if they pass, the curve, the controller, the armature
     * and its bones, the links, hiding the template, the parenting loop, the spline-IK and
     * the two object parents. The curve's geometry is left to the host (see `BuildUShape`
     * and `CurveData` for what it is).
     */
    method Generate(template: Option<string>, templateDimY: real, radius: real, length: real,
                    linkCount: nat, changeBoneSize: bool, headOffset: real, tailOffset: real)
      returns (result: Result<RigNames, Error>)
      requires Valid() && (template.Some? ==> template.value in objects) && linkCount >= 1
      // Blender gives an object without a data block (an empty) no dimensions.
      requires template.Some? && objects[template.value].data.None? ==> templateDimY <= 0.0
      modifies this
      ensures Valid()
      ensures result.Err? <==> Precheck(TemplateDimY(template, templateDimY), radius, length).Some?
      ensures result.Err? ==>
                Precheck(TemplateDimY(template, templateDimY), radius, length) == Some(result.error) &&
                objects == old(objects) && nextData == old(nextData)
      ensures result.Ok? ==>
                template.Some? &&
                IsRig(old(objects), old(nextData), objects, nextData, template.value,
                      BoneLength(templateDimY, changeBoneSize, headOffset, tailOffset),
                      ArmatureY(old(objects)[template.value].location.y, templateDimY, changeBoneSize, headOffset),
                      linkCount, result.value)
    {
      var check := Precheck(TemplateDimY(template, templateDimY), radius, length);
      if check.Some? {
        return Err(check.value);
      }
      ghost var objs0 := objects;
      ghost var data0 := nextData;
      var custom := template.value;
      var source := objects[custom];

      var len := BoneLength(templateDimY, changeBoneSize, headOffset, tailOffset);
      var armY := ArmatureY(source.location.y, templateDimY, changeBoneSize, headOffset);
      var curve, controller, armature, objs2 := AddCreated(linkCount, len, armY);
      ghost var objs3 := objects;
      var links, objs4, objs5, objs6, objs7, objs8 := AddChain(custom, curve, controller, armature, linkCount, len);
      result := Ok(RigNames(curve, controller, armature, links));
      AssembleRig(objs0, data0, custom, curve, controller, armature, links, linkCount, len, armY,
                  objs2, objs3, objs4, objs5, objs6, objs7, objs8, objects);
    }
  }
}

/**
 * The chain layout: the bone length, where the armature goes, the chain of
 * bones (armature-local, along +y) and the link objects duplicated from the
 * template, one per bone.
 */
module Layout {
  import opened Wrappers
  import opened Geometry
  import opened Names

  /** `bone_length = y_dimension + tail_offset - head_offset if change_bone_size else y_dimension`. */
  function BoneLength(yDimension: real, changeBoneSize: bool, headOffset: real, tailOffset: real): real
  {
    if changeBoneSize then yDimension + tailOffset - headOffset else yDimension
  }

  /** The y of the armature object: the template's lower y end, moved by the head offset if asked. */
  function ArmatureY(templateY: real, yDimension: real, changeBoneSize: bool, headOffset: real): real
  {
    var startY := templateY - yDimension / 2.0;
    if changeBoneSize then startY + headOffset else startY
  }

  /** Without `change_bone_size` the bone is as long as the template, whatever the offsets say. */
  lemma BoneLengthIgnoresOffsets(yDimension: real, h1: real, t1: real, h2: real, t2: real)
    ensures BoneLength(yDimension, false, h1, t1) == yDimension == BoneLength(yDimension, false, h2, t2)
  {
  }

  /**
   * In world y the first bone runs from the template's lower end to its upper end,
   * each moved by its offset when `change_bone_size` is set (the offsets being measured,
   * as the cursor pickers measure them, from the ends of the template).
   */
  lemma FirstBoneSpan(templateY: real, yDimension: real, changeBoneSize: bool, headOffset: real, tailOffset: real)
    ensures var y0 := ArmatureY(templateY, yDimension, changeBoneSize, headOffset);
      var len := BoneLength(yDimension, changeBoneSize, headOffset, tailOffset);
      && y0 == templateY - yDimension / 2.0 + (if changeBoneSize then headOffset else 0.0)
      && y0 + len == templateY + yDimension / 2.0 + (if changeBoneSize then tailOffset else 0.0)
  {
  }

  /** A Y dimension of 2 with offsets -0.5 and 0.5 gives bones of length 3. */
  lemma BoneLengthExample()
    ensures BoneLength(2.0, true, -0.5, 0.5) == 3.0
  {
  }

  /** `execute` does not check the bone length: offsets can make it zero or negative. */
  lemma BoneLengthUnchecked()
    ensures BoneLength(1.0, true, 0.5, -0.5) == 0.0
    ensures BoneLength(1.0, true, 1.0, -1.0) < 0.0
  {
  }

  /** An edit bone: name, head and tail (armature-local), parent index and `use_connect`. */
  datatype Bone = Bone(name: string, head: Point, tail: Point, parent: Option<nat>, connect: bool)

  function OnAxis(y: real): Point
  {
    Point(0.0, y, 0.0)
  }

  /**
   * Bone i of the chain: `<armature>_Bone<i+1>`, from (0, i * len, 0) to (0, (i+1) * len, 0)
   * in armature space, the child of bone i - 1 and connected to it (the first bone has no parent).
   */
  function PlannedBone(armature: string, i: nat, len: real): Bone
  {
    Bone(BoneName(armature, i), OnAxis(i as real * len), OnAxis((i + 1) as real * len),
         if i == 0 then None else Some(i - 1), i > 0)
  }

  /** What step 4 of the bone generator builds, one bone per link. */
  ghost predicate IsBonePlan(bones: seq<Bone>, armature: string, linkCount: nat, len: real)
  {
    && |bones| == linkCount
    && forall i :: 0 <= i < linkCount ==> bones[i] == PlannedBone(armature, i, len)
  }

  /** The loop that creates the bones, carrying `prev_bone` from one to the next. */
  method PlanBones(armature: string, linkCount: nat, len: real) returns (bones: seq<Bone>)
    ensures IsBonePlan(bones, armature, linkCount, len)
  {
    var prev: Option<nat> := None;
    bones := [];
    for i := 0 to linkCount
      invariant |bones| == i
      invariant prev == if i == 0 then None else Some(i - 1)
      invariant IsBonePlan(bones, armature, i, len)
    {
      var bone := Bone(BoneName(armature, i), OnAxis(i as real * len), OnAxis((i + 1) as real * len), None, false);
      if prev.Some? {
        bone := bone.(parent := prev, connect := true);
      }
      assert bone == PlannedBone(armature, i, len);
      prev := Some(i);
      bones := bones + [bone];
    }
  }

  /** Consecutive bones meet: each tail is the next head, and each child starts at its parent's tail. */
  lemma BonesChainHeadToTail(bones: seq<Bone>, armature: string, linkCount: nat, len: real)
    requires IsBonePlan(bones, armature, linkCount, len)
    ensures forall i :: 0 <= i < linkCount - 1 ==> bones[i].tail == bones[i + 1].head
    ensures forall i :: 0 <= i < linkCount && bones[i].parent.Some? ==>
              bones[i].parent.value < i && bones[bones[i].parent.value].tail == bones[i].head
  {
    forall i | 0 <= i < linkCount - 1
      ensures bones[i].tail == bones[i + 1].head
    {
      assert bones[i] == PlannedBone(armature, i, len);
      assert bones[i + 1] == PlannedBone(armature, i + 1, len);
    }
    forall i | 0 <= i < linkCount && bones[i].parent.Some?
      ensures bones[i].parent.value < i && bones[bones[i].parent.value].tail == bones[i].head
    {
      assert bones[i] == PlannedBone(armature, i, len);
      assert bones[i - 1] == PlannedBone(armature, i - 1, len);
    }
  }

  /** No two bones of the chain share a name. */
  lemma BoneNamesUnique(bones: seq<Bone>, armature: string, linkCount: nat, len: real)
    requires IsBonePlan(bones, armature, linkCount, len)
    ensures forall i, j :: 0 <= i < j < linkCount ==> bones[i].name != bones[j].name
  {
    forall i, j | 0 <= i < j < linkCount
      ensures bones[i].name != bones[j].name
    {
      BoneNamesDistinct(armature, i, j);
    }
  }

  predicate ParentsPrecede(bones: seq<Bone>)
  {
    forall i :: 0 <= i < |bones| && bones[i].parent.Some? ==> bones[i].parent.value < i
  }

  /**
   * The bones a spline-IK on bone i with `chain_count` c acts on: bone i and its
   * ancestors, c bones in all or fewer if the chain ends first.
   */
  function IKChain(bones: seq<Bone>, i: nat, c: nat): seq<nat>
    requires i < |bones| && ParentsPrecede(bones)
    decreases c
  {
    if c == 0 then []
    else [i] + match bones[i].parent
               case None => []
               case Some(p) => IKChain(bones, p, c - 1)
  }

  /** In a planned chain bone j's parent is bone j - 1, and the first bone has none. */
  lemma PlanParents(bones: seq<Bone>, armature: string, linkCount: nat, len: real)
    requires IsBonePlan(bones, armature, linkCount, len)
    ensures ParentsPrecede(bones)
    ensures forall j :: 0 <= j < |bones| ==> bones[j].parent == if j == 0 then None else Some(j - 1)
  {
    forall j | 0 <= j < |bones|
      ensures bones[j].parent == if j == 0 then None else Some(j - 1)
    {
      assert bones[j] == PlannedBone(armature, j, len);
    }
  }

  /** The indices i, i - 1, ..., i - c + 1. */
  function Countdown(i: nat, c: nat): (r: seq<nat>)
    requires c <= i + 1
    ensures |r| == c
    decreases c
  {
    if c == 0 then [] else [i] + (if i == 0 then [] else Countdown(i - 1, c - 1))
  }

  lemma {:induction false} CountdownAt(i: nat, c: nat, k: nat)
    requires c <= i + 1 && k < c
    ensures Countdown(i, c)[k] == i - k
    decreases c
  {
    if k > 0 {
      CountdownAt(i - 1, c - 1, k - 1);
    }
  }

  /** Along such a chain the spline-IK on bone i with chain count c takes bones i, i - 1, ..., i - c + 1. */
  lemma {:induction false} IKChainFrom(bones: seq<Bone>, i: nat, c: nat)
    requires ParentsPrecede(bones)
    requires forall j :: 0 <= j < |bones| ==> bones[j].parent == if j == 0 then None else Some(j - 1)
    requires i < |bones| && c <= i + 1
    ensures IKChain(bones, i, c) == Countdown(i, c)
    decreases c
  {
    if c > 0 && i > 0 {
      assert bones[i].parent == Some(i - 1);
      IKChainFrom(bones, i - 1, c - 1);
    } else if c > 0 {
      assert bones[0].parent == None;
    }
  }

  /**
   * `chain_count = link_count` on the last bone makes the spline-IK act on the whole
   * chain: every bone, from the last back to the first, each once.
   */
  lemma IKCoversChain(bones: seq<Bone>, armature: string, linkCount: nat, len: real)
    requires IsBonePlan(bones, armature, linkCount, len) && linkCount >= 1
    ensures ParentsPrecede(bones)
    ensures var chain := IKChain(bones, linkCount - 1, linkCount);
      && |chain| == linkCount
      && (forall k :: 0 <= k < linkCount ==> chain[k] == linkCount - 1 - k)
      && (forall b :: 0 <= b < linkCount ==> b in chain)
  {
    PlanParents(bones, armature, linkCount, len);
    IKChainFrom(bones, linkCount - 1, linkCount);
    var chain := IKChain(bones, linkCount - 1, linkCount);
    forall k | 0 <= k < linkCount
      ensures chain[k] == linkCount - 1 - k
    {
      CountdownAt(linkCount - 1, linkCount, k);
    }
    forall b | 0 <= b < linkCount
      ensures b in chain
    {
      assert chain[linkCount - 1 - b] == b;
    }
  }

  /** Where link i is placed: `new_link.location = (0, i * bone_length, 0)`. */
  function LinkLocation(i: nat, len: real): Point
  {
    OnAxis(i as real * len)
  }

  /**
   * Link i has the same y offset as bone i's armature-local head. The link's location is
   * world-space (for a template without parent), so in the world its y differs from its bone's head by `armY`.
   */
  lemma LinksAtBoneHeads(bones: seq<Bone>, armature: string, linkCount: nat, len: real)
    requires IsBonePlan(bones, armature, linkCount, len)
    ensures forall i :: 0 <= i < linkCount ==> LinkLocation(i, len) == bones[i].head
  {
  }
}

# Energy Chain Generator, modelled in Dafny

A Dafny model of the rules beneath the "Generate Energy Chain" operator of the Blender
add-on `energy_chain_generator.py`. One run of the operator builds four things:

- a U-shaped guide curve and a "Controller" empty, which the curve's hook modifier follows;
- an armature holding a chain of bones laid end to end along +y;
- one copy ("link") of a chosen template object per bone, each bone-parented to its bone;
- a spline-IK constraint on the last bone, which makes the chain follow the curve.

The model leaves Blender itself aside. A scene is a map from object names to object records.
Each operator step becomes an operation on that map with an exact contract.

Modules, one per concern of the add-on:

- `Names` (`names.dfy`) covers naming:
  - Python's `str(n)` and `f"{n:03}"`;
  - the allocator `get_unique_name`, as a `while` loop proved against the predicate
    `IsUniqueName` ("the base if free, else the base with the least free `.NNN`");
  - `str.replace`;
  - the bone and link names.
- `Guards` (`guards.dfy`) holds the three checks `execute` makes before it changes anything.
- `Geometry` (`geometry.dfy`) holds the U-curve rules, on a given sequence of circle vertices:
  - dropping the vertices with y < 0;
  - picking the first vertex of least x and the first of greatest x;
  - the extrude amount `(length - pi * radius) / 2`.

  Pi is an abstract positive constant.
- `Hook` (`hook.dfy`) models the curve data as a class whose splines' `select` flags are set
  in place: every point of a POLY spline except its first and last.
- `Layout` (`layout.dfy`) covers the chain's layout:
  - the bone length and where the armature goes;
  - the bone loop that carries `prev_bone`;
  - the chain a spline-IK acts on.
- `Rig` (`rig.dfy`) models the scene as a class `Scene`, with the object map and a counter of
  data blocks. Its methods are the steps of `execute`. The duplication loop and the parenting
  loop are `for` loops proved against `IsLinkRun` and `BindAll`. `Scene.Generate` is `execute`
  as a whole. Its contract says two things:
  - When a precheck fails, the error names the check and nothing changes.
  - Otherwise the new scene is the one `IsRig` describes: the names chosen, the objects added,
    the curve, controller and armature, every link, and every object that was there before.

The parenting loop looks objects up by name, and the model keeps that. Take a planned link
name `<prefix>_<i>` that an object in the scene already carries (from an earlier run, say).
The new link is then renamed `<prefix>_<i>.NNN` and keeps the template's parent. The existing
object is the one parented to bone i. `IsRig` states this and `Rig.LinkNaming` spells it out.

The add-on does not check these, and the model does not either:

- that the bone length is positive;
- that the parenting loop finds every bone and link: a missing one is skipped, not an error;
- radius, length and link count, inside `execute`: only the properties' bounds hold them in
  range. The model keeps `link_count >= 1` (the `IntProperty` minimum) as a
  precondition.

## Model

| member | source | states |
|---|---|---|
| Names.NatToString | energy_chain_generator.py:223 | definition of Python's `str(n)` on a natural number: its decimal digits, no leading zero |
| Names.Pad3 | energy_chain_generator.py:91 | definition of `f"{k:03}"`: the digits of k, zero-padded to a width of at least 3 |
| Names.Suffixed | energy_chain_generator.py:91 | definition of the candidate `f"{base_name}.{index:03}"` |
| Names.IsUniqueName | energy_chain_generator.py:85-93 | definition of what `get_unique_name` promises: a free name, the base when it is free, and otherwise `base.NNN` for the least free index >= 1 |
| Names.NatToStringValue | energy_chain_generator.py:223 | the digits `str(n)` writes read back as n, so different numbers give different names |
| Names.Pad3Value | energy_chain_generator.py:91 | the digits of `f"{k:03}"` read back as k: padding never changes the index |
| Names.Pad3Width | energy_chain_generator.py:91 | indices below 1000 take exactly three digits; from 1000 on, all their digits and no padding |
| Names.SuffixedInjective | energy_chain_generator.py:91-93 | two candidates `base.NNN` are equal only for the same index, so every probe is a new name |
| Names.UniqueName | energy_chain_generator.py:85-93 | `get_unique_name` returns a name not in the existing set; the base itself when it is free, and otherwise `base.NNN` for the least index >= 1 whose name is free |
| Names.UniqueNameDetermined | energy_chain_generator.py:85-93 | the allocator's answer is a function of the base and the existing names: two answers that both meet its promise are equal |
| Names.UniqueNameExtendsBase | energy_chain_generator.py:88-93 | an allocated name starts with its base and continues with nothing but dots and digits |
| Names.FirstFreeSuffix | energy_chain_generator.py:90-93 | with the base taken, the first k - 1 suffixed names taken and the k-th free, the k-th suffixed name is the answer |
| Names.FirstCollisionExample | energy_chain_generator.py:90-93 | with only "Controller" taken, the answer is "Controller.001" |
| Names.SecondCollisionExample | energy_chain_generator.py:90-93 | with "Controller" and "Controller.001" taken, the answer is "Controller.002" |
| Names.Replace | energy_chain_generator.py:237 | definition of Python's `str.replace`: every non-overlapping occurrence of the pattern, left to right |
| Names.LinkPrefix | energy_chain_generator.py:237 | definition of `new_link_name = armature.name.replace("Armature", "Link")` |
| Names.BoneName | energy_chain_generator.py:223 | definition of bone i's name `<armature>_Bone<i+1>` |
| Names.LinkName | energy_chain_generator.py:242 | definition of link i's requested name `<prefix>_<i+1>` |
| Names.ReplaceSingle | energy_chain_generator.py:237 | `str.replace` on a string holding the pattern exactly once, between parts that cannot start it, replaces exactly that occurrence |
| Names.ReplaceInArmatureName | energy_chain_generator.py:237 | replacing "Armature" by "Link" in "EnergyChainArmature" plus a suffix with no 'A' gives "EnergyChainLink" plus the same suffix |
| Names.LinkPrefixOfNamedArmature | energy_chain_generator.py:237 | an armature named from "EnergyChainArmature" has link prefix "EnergyChainLink" followed by the armature's own suffix |
| Names.BoneNamesDistinct | energy_chain_generator.py:223 | `<armature>_Bone<i+1>` names differ for different i |
| Names.LinkNamesDistinct | energy_chain_generator.py:242 | `<prefix>_<i+1>` names differ for different i |
| Names.SuffixedLinkNameIsNoLinkName | energy_chain_generator.py:242 | a link name with `.NNN` appended equals no link name of the same prefix |
| Names.RenamedLinkName | energy_chain_generator.py:242 | the name given to link i is never the planned name of another link, and when it is not its own planned name it is the planned name of no link |
| Names.LinkNameLetters | energy_chain_generator.py:237-242 | every link name of such an armature starts "EnergyChainL" |
| Names.GeneratedNamesAreNoLinkNames | energy_chain_generator.py:237-242 | names made from "U_Shape", "Controller" and "EnergyChainArmature" are never the name of a link of that armature |
| Guards.Precheck | energy_chain_generator.py:103-130 | the run goes ahead exactly when a template is chosen, its Y dimension is positive and the length exceeds pi * radius; each error names its check, in the order `execute` makes them |
| Guards.PassedPrecheckGivesPositiveLegs | energy_chain_generator.py:158-159 | once the prechecks pass, each leg is extruded by a positive amount |
| Guards.ArcCheckStillNeeded | energy_chain_generator.py:126-130 | the properties' bounds (radius >= 0.01, length >= 0) do not make the arc check redundant |
| Geometry.ArcLength | energy_chain_generator.py:126 | definition of `arc_length = math.pi * radius` |
| Geometry.ExtrudeAmount | energy_chain_generator.py:158-159 | the two legs plus the half circle add up to `length`, and the legs are positive exactly when `length > pi * radius` |
| Geometry.UpperHalf | energy_chain_generator.py:144-145 | deleting `[v for v in verts if v.co.y < 0]` keeps exactly the vertices with y >= 0 (those on y = 0 included), each as often as before |
| Geometry.UpperHalfAppend | energy_chain_generator.py:144-145 | filtering a concatenation is filtering each part, in their order |
| Geometry.UpperHalfPrefix | energy_chain_generator.py:144-152 | the kept vertices keep their order: the upper half of a prefix is a prefix of the upper half |
| Geometry.FirstMinX | energy_chain_generator.py:151 | `min(..., key=x)` picks a vertex of least x, the first such |
| Geometry.FirstMaxX | energy_chain_generator.py:152 | `max(..., key=x)` picks a vertex of greatest x, the first such |
| Geometry.SelectEnds | energy_chain_generator.py:150-152 | the two free ends bound every vertex's x from below and above; none exist (Python raises) exactly when no vertex is left |
| Geometry.Extruded | energy_chain_generator.py:160 | definition of a vertex moved by `extrude_vertices_move` with value `(0, -e, 0)`: x and z kept, y lowered by e |
| Geometry.BuildUShape | energy_chain_generator.py:141-160 | the U shape is the upper half circle, its least-x and greatest-x ends, and each end moved by the extrude amount along -y; it fails exactly when nothing is left of the circle |
| Geometry.LegsOfUShape | energy_chain_generator.py:157-160 | after the length check each leg tip lies directly below its end by the same positive amount, and arc plus legs is `length` long |
| Hook.Deselected | energy_chain_generator.py:181 | definition of a spline after `curve.select_all(action='DESELECT')`: every point deselected, nothing moved |
| Hook.WithHookSelection | energy_chain_generator.py:182-187 | definition of a spline after the selection loop: on a POLY spline the points with `0 < i < n - 1` selected, other splines as they were |
| Hook.CurveData.DeselectAll | energy_chain_generator.py:181 | every point of every spline is deselected, nothing else changes |
| Hook.CurveData.SelectHookPoints | energy_chain_generator.py:182-187 | every spline becomes `WithHookSelection` of what it was: on POLY splines the points with `0 < i < n - 1` get selected, other splines and points are left alone |
| Hook.Interior | energy_chain_generator.py:186 | definition of the test `0 < i < (len(spline.points)-1)`: neither the first point nor the last |
| Hook.HookSelectsInterior | energy_chain_generator.py:181-187 | after deselecting and the loop, a point is selected exactly when its spline is POLY and it is neither first nor last; no point moves |
| Hook.CountSelectedRange | energy_chain_generator.py:182-187 | a point sequence whose selected points are exactly those with index in [lo, hi) has hi - lo selected points |
| Hook.HookSelectionCount | energy_chain_generator.py:182-187 | on a POLY spline of n >= 2 points the hook gets n - 2 of them |
| Hook.HookBindsArc | energy_chain_generator.py:182-193 | on a converted U curve (leg tip, arc, leg tip) the hook binds the whole arc and neither tip |
| Layout.BoneLength | energy_chain_generator.py:203 | definition of `bone_length`: `y_dimension + tail_offset - head_offset` with `change_bone_size`, `y_dimension` without |
| Layout.ArmatureY | energy_chain_generator.py:204-210 | definition of the armature's y: `start_y`, the template's lower y end, plus `head_offset` with `change_bone_size` |
| Layout.BoneLengthIgnoresOffsets | energy_chain_generator.py:203 | without `change_bone_size` the bone length is the template's Y dimension, whatever the offsets |
| Layout.FirstBoneSpan | energy_chain_generator.py:203-210 | the first bone runs from the template's lower y end to its upper end, each moved by its offset when `change_bone_size` is set |
| Layout.BoneLengthExample | energy_chain_generator.py:203 | Y dimension 2 with offsets -0.5 and 0.5 gives bones of length 3 |
| Layout.BoneLengthUnchecked | energy_chain_generator.py:203 | the offsets can make the bone length zero or negative, and nothing checks it |
| Layout.PlannedBone | energy_chain_generator.py:223-229 | definition of bone i: `<armature>_Bone<i+1>` from (0, i*L, 0) to (0, (i+1)*L, 0), child of bone i - 1 and connected to it; bone 0 has no parent and is not connected |
| Layout.IsBonePlan | energy_chain_generator.py:220-231 | definition of the chain the bone loop builds: `link_count` bones, bone i being `PlannedBone` i |
| Layout.PlanBones | energy_chain_generator.py:220-231 | the bone loop builds `link_count` bones; bone i is `<armature>_Bone<i+1>` from (0, i*L, 0) to (0, (i+1)*L, 0), the connected child of bone i - 1; bone 0 has no parent |
| Layout.BonesChainHeadToTail | energy_chain_generator.py:224-229 | each bone's tail is the next bone's head, and each child starts at its parent's tail |
| Layout.BoneNamesUnique | energy_chain_generator.py:223 | no two bones of the chain share a name |
| Layout.PlanParents | energy_chain_generator.py:227-229 | in the chain bone j's parent is bone j - 1 and the first bone has none |
| Layout.IKChain | energy_chain_generator.py:300-303 | definition of the bones a spline-IK with chain count c on bone i acts on: bone i and its ancestors, c bones in all or fewer if the chain ends first |
| Layout.IKChainFrom | energy_chain_generator.py:300-303 | along that chain, a spline-IK on bone i with chain count c acts on bones i, i - 1, ..., i - c + 1 |
| Layout.IKCoversChain | energy_chain_generator.py:296-303 | `chain_count = link_count` on the last bone makes the spline-IK act on every bone of the chain, from the last back to the first, each once |
| Layout.LinkLocation | energy_chain_generator.py:243 | definition of link i's location `(0, i * bone_length, 0)` |
| Layout.LinksAtBoneHeads | energy_chain_generator.py:243 | link i is placed at `(0, i*L, 0)`, the same y offset as bone i's armature-local head |
| Rig.CurveObj | energy_chain_generator.py:134-190 | definition of the curve object: created at (0, 0, 0) with its own data block, its hook following the controller |
| Rig.ControllerObj | energy_chain_generator.py:170 | definition of the controller: a single-arrow empty at (0, 0, 0) with no data block |
| Rig.ArmatureObj | energy_chain_generator.py:207-210 | definition of the armature object from `armature_add` at `(0, y, 0)` with its own data block, before its bones |
| Rig.TemplateDimY | energy_chain_generator.py:103-108 | definition of the template's Y dimension: none without a chosen object, `dimensions.y` with one |
| Rig.LinkCopy | energy_chain_generator.py:240-243 | definition of link i: `custom_object.copy()` with its own data block, at `(0, i*L, 0)`, not hidden |
| Rig.HasBone | energy_chain_generator.py:261 | definition of `bone_name in armature.data.bones` |
| Rig.BindStep | energy_chain_generator.py:257-285 | definition of one turn of the parenting loop: object `<prefix>_<i+1>` bone-parented to `<armature>_Bone<i+1>` when both exist, the scene as it was otherwise |
| Rig.BindAll | energy_chain_generator.py:256-289 | the parenting loop keeps every object and changes no bones or data blocks |
| Rig.BindAllKeys | energy_chain_generator.py:256-289 | the parenting loop adds no object |
| Rig.BindAllSkips | energy_chain_generator.py:256-289 | an object the loop does not bind (its name is no link name, or that link's bone is missing) stays exactly as it was |
| Rig.BindAllBinds | energy_chain_generator.py:261-285 | link i is bone-parented to bone i when both names exist, and nothing else of it changes |
| Rig.PlannedBonesPresent | energy_chain_generator.py:261 | every bone the parenting loop looks for is in the planned chain |
| Rig.BindPlanned | energy_chain_generator.py:256-289 | on a planned chain the loop binds every object that bears a link's planned name to that link's bone |
| Rig.WithSplineIK | energy_chain_generator.py:296-307 | definition of the armature after step 9: a "Spline IK" constraint on its last pose bone, targeting the curve, `chain_count = link_count`, both scale modes BONE_ORIGINAL |
| Rig.SplineIKOnLastBoneOnly | energy_chain_generator.py:296-307 | the armature gets one constraint, "Spline IK", on the last bone and no other, targeting the curve with `chain_count == link_count` and both scale modes BONE_ORIGINAL, and acting on every bone |
| Rig.LinkRunNamed | energy_chain_generator.py:237-242 | definition of the names of the duplication loop's links: link i named as `<prefix>_<i+1>` is renamed against the names taken before it, all distinct, and none under another link's planned name |
| Rig.LinkRunMade | energy_chain_generator.py:239-244 | definition of the objects of the duplication loop: the earlier objects plus the links, link i a placed copy of the template with data block `data0 + i`, earlier objects untouched |
| Rig.IsLinkRun | energy_chain_generator.py:237-245 | definition of what the duplication loop has done: `LinkRunNamed` and `LinkRunMade` together |
| Rig.LinkRunStep | energy_chain_generator.py:239-245 | one more link, named as Blender names it and placed as link i, keeps the run's names and objects as `IsLinkRun` says |
| Rig.BindStage | energy_chain_generator.py:250-289 | on the scene after duplication, the loop leaves the curve, controller and armature alone, binds each link exactly when it got its planned name, and binds an earlier object exactly when it bears a planned link name |
| Rig.CreatedSteps | energy_chain_generator.py:132-231 | definition of steps 1 to 4: curve and controller named by `get_unique_name` in that order and added, then the armature named against them, at `(0, armY, 0)`, holding the planned bones |
| Rig.LinkSteps | energy_chain_generator.py:237-248 | definition of steps 5 and 6: `link_count` links as `IsLinkRun` says, then the template hidden |
| Rig.BoundSteps | energy_chain_generator.py:256-326 | definition of steps 7 to 10: the parenting loop, the spline-IK on the last bone, then controller parented to curve and curve to armature |
| Rig.GenerateSteps | energy_chain_generator.py:132-326 | definition of the states a successful run passes through: `CreatedSteps`, `LinkSteps` and `BoundSteps` in order |
| Rig.IsRig | energy_chain_generator.py:95-331 | definition of the scene a successful run leaves: the names chosen, the objects added, the curve, controller and armature, every link, every earlier object, and `link_count + 2` data blocks used |
| Rig.AssembleRig | energy_chain_generator.py:95-331 | the states the steps of `execute` go through end in the scene `IsRig` describes |
| Rig.LinksHaveOwnData | energy_chain_generator.py:240-241 | every link has a data block of its own, shared with no other link and with no object there before |
| Rig.LinkNaming | energy_chain_generator.py:237-289 | a link whose planned name is free gets it and is bound to its bone; when an earlier object holds that name, the link is renamed and keeps the template's parent, and the earlier object is bound instead |
| Rig.Scene.NewData | energy_chain_generator.py:241 | a fresh data block, as `data.copy()` makes: the next number, and no object changes |
| Rig.Scene.AddObject | energy_chain_generator.py:244 | the object map gains exactly the new object under its free name, and the data counter is kept |
| Rig.Scene.AddLink | energy_chain_generator.py:240-244 | one new object under the name Blender gives `<prefix>_<i+1>`: a copy of the template at `(0, i*L, 0)` with a fresh data block |
| Rig.Scene.DuplicateTemplate | energy_chain_generator.py:237-245 | the duplication loop makes `link_count` links, each a placed copy of the template with its own data block, each named against the objects before it, and changes no earlier object |
| Rig.Scene.Hide | energy_chain_generator.py:248 | the template is hidden and nothing else changes |
| Rig.Scene.BindLinksToBones | energy_chain_generator.py:250-289 | the loop from 1 to `link_count` leaves the scene `BindAll` describes |
| Rig.Scene.SetHook | energy_chain_generator.py:190 | the curve's hook modifier now follows the controller |
| Rig.Scene.AddSplineIK | energy_chain_generator.py:293-307 | the last bone of the armature gets the spline-IK targeting the curve with chain count `link_count` |
| Rig.Scene.SetObjectParent | energy_chain_generator.py:312-326 | the child's parent is the given object, nothing else changes |
| Rig.Scene.AddCurveAndController | energy_chain_generator.py:132-193 | the curve and the controller are added under the names `get_unique_name` gives when asked for each, and the curve's hook follows the controller |
| Rig.Scene.AddArmature | energy_chain_generator.py:206-231 | the armature is added under the name `get_unique_name` gives, at the armature y, holding the planned chain of bones |
| Rig.Scene.AddCreated | energy_chain_generator.py:132-231 | steps 1 to 4: the curve and controller, then the armature with its planned bones, each named by `get_unique_name` against the objects there at that point, two data blocks used |
| Rig.Scene.AddChain | energy_chain_generator.py:236-326 | duplication, hiding, the parenting loop, the spline-IK and the two object parents, each step as its own method states |
| Rig.Scene.Generate | energy_chain_generator.py:95-331 | a precheck failure returns that error and leaves the scene unchanged; otherwise the scene becomes the rig `IsRig` describes, with `link_count + 2` new data blocks |

## Left out

- Blender's own operators, and what they do inside: `bpy.ops`, `bmesh`, mode switching,
  object and vertex selection, the current active object, `convert`, `hook_assign` and
  `parent_set`. Each is modelled by its effect on the object map, or not at all.
- What `keep_transform` does to world matrices, and the spline-IK solve itself. These live in
  Blender. In particular, when the template has a parent of its own, `parent_set(type='BONE',
  keep_transform=True)` (line 285) keeps each bound link's world placement by rewriting its
  `location`; the model's link keeps `(0, i * bone_length, 0)`.
- The circle primitive's vertex count and order. `BuildUShape` takes the vertices as a
  parameter, and `HookBindsArc` takes the converted spline's layout as a premise. The curve
  object in `Scene` carries no geometry, so `Generate` does not build the U shape.
- The rotations (1.5708) given to the circle and the empty.
- IEEE floating point: lengths and coordinates are `real`, and pi is an abstract positive
  constant.
- The "Failed to create curve" branch (lines 137-139): the model takes the circle primitive
  to always succeed. In `execute` the name is set before the test, so the branch cannot
  be reached with a missing curve anyway.
- The default bone of a new armature, and its deletion (lines 215-217): the model starts the
  armature with no bones.
- The host's default names for new objects ("Circle", "Empty", "Armature"). They never equal
  a base the allocator is asked for, or a suffixed base.
- Blender's renaming of a link whose name is taken (line 242): modelled as the same
  first-free `.NNN` rule as `get_unique_name`.
- The template's dimensions are a parameter of `Generate`; its location comes from the
  object map.
- Generate: keeps every planned bone even when `bone_length` is 0. Blender drops zero-length
  bones on leaving edit mode (line 234), after which the parenting loop binds no link and
  `armature.pose.bones[-1]` (line 296) fails; the model returns the full chain instead.
  This rule of Blender's is not visible in the add-on's own code.
- IKCoversChain: takes `chain_count` as an unbounded natural number. Blender limits a
  spline-IK chain count to 1..255, so for more than 255 links the constraint does not reach
  every bone.
- Generate: assumes, as a precondition, that a template without a data block (an empty) has a Y
  dimension of at most 0, as Blender reports for such an object. Line 109 then cancels the run,
  so the `AttributeError` that `custom_object.data.copy()` (line 241) would raise after the curve,
  controller and armature exist is not modelled.
- The cursor offset pickers (lines 25-64), the UI panel (lines 334-366),
  `register`/`unregister` (lines 369-424), and the `print` and `report` messages.

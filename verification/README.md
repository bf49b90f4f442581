# Verified model of the mingpan divination engines

mingpan is a TypeScript library. It casts the charts of four Chinese divination systems, each from a handful of calendar symbols. This project models their calculation core in Dafny and proves properties of it.

- **Da Liu Ren (大六壬).**
  - The heaven plate (天盤) rotates the twelve branches so that the month general (月將) sits over the hour branch.
  - The twelve guardian generals (天將) are laid out forward or in reverse from the noble person (貴人).
  - The four lodges (四課) are chained lookups, and each carries its five-phase relation.
  - The three transmissions (三傳) come from the nine-schools chain: 返吟/絕嗣, 伏吟, 八專, single offence (重審/元首), multiple offences (比用, 涉害), 遙尅 and 昴星. Kin and void marks are attached to each transmission.
  - The residual deities (神煞) are table lookups, and the service wires these steps in a fixed order.
- **Liu Yao (六爻).**
  - The trigram and hexagram tables of the eight palaces, with 世/應 and 納甲.
  - The kin (六親), the six spirits (六神), the void branches (旬空), the hidden spirits (伏神), advancing/retreating spirits (進退神) and strength (旺衰).
  - The service that collects the moving lines, builds the changed hexagram and lists the six lines.
- **Meihua (梅花易數).**
  - Casting reduces numbers to trigrams and a moving line.
  - The changed (變) and nuclear (互) hexagrams are derived from the lines.
  - The body/use (體用) relation is classified, and the service dispatches between time and number casting.
- **Qimen (奇門遁甲).**
  - Input validation, the default chart type and leap method, and the choice of reference pillar.
  - The branches of each of the nine palaces.
  - The void and horse marks of the palaces, and the palace of a stem.

Everything is a total function of its explicit arguments. Where the source updates arrays or records in loops, the model has a method with a loop, proved against a specification function. Examples are the heaven plate, the guardian layout, the relation counts, the 涉害 walk, the line lists and the palace record.

Some constant tables live in modules that are not part of this model: src/services/daliuren/data/constants.ts and src/services/qimen/data/constants.ts. Their tables are fields of a `Tables` (Da Liu Ren) or `QimenTables` (Qimen) value passed in as a parameter. Every property of those tables that a proof relies on is a named predicate in a `requires` clause. Examples:
- `ZHI_CHONG` is the branch six steps on (`ChongIsOpposite`);
- the centre palace lodges in 坤二 (`CentreLodgesInKun`).

One exception is the order of `TIAN_GAN` (甲…癸) and `DI_ZHI` (子…亥). No predicate states it; the representation assumes it, because a stem or branch *is* its index in that order.

The output of the calendar library (the four pillars, the solar term, the lunar month and the lunar moment) is an input of the model.

## Model

| member | source | states |
|---|---|---|
| Symbols.Distance | src/services/liuyao/calculators/XunkongCalculator.ts:47 | The clockwise distance is in 0..11 and shifting by it reaches the target |
| Symbols.FivePhaseCases | src/services/liuyao/calculators/LiuqinCalculator.ts:15-30 | For any two phases exactly one holds: same, one generates the other (either way), one overcomes the other (either way) |
| Lists.IndexOf | src/services/daliuren/calculators/SanChuanCalculator.ts:296-297 | Array.indexOf: -1 iff absent, otherwise the first position holding the value |
| Lists.Filter | src/services/daliuren/calculators/SanChuanCalculator.ts:227-239 | Array.filter keeps the elements that pass and no others |
| Lists.FilterIsOrderedSubsequence | src/services/daliuren/calculators/SanChuanCalculator.ts:227-239 | Array.filter keeps order and multiplicity: its k-th element is the element at the k-th passing position, those positions strictly increase, and every passing position appears |
| Lists.FilterTwice | src/services/daliuren/calculators/SanChuanCalculator.ts:236-239 | Filtering the filtered list by a second test is filtering once by both tests |
| Lists.FilterSingleton | src/services/daliuren/calculators/SanChuanCalculator.ts:241 | The filtered list has length one iff exactly one position passes |
| Lists.FilterHeadIsFirst | src/services/daliuren/calculators/SanChuanCalculator.ts:229-232 | The first element kept is the element at the first passing position |
| Lists.Find | src/services/meihua/data/bagua.ts:30 | Array.find: nothing iff no element passes, otherwise the element at the first passing position |
| Lists.FindIsFirstOfFilter | src/services/meihua/data/bagua.ts:30 | find returns the first element filter would keep |
| Lists.FilterKeepsOrder | src/services/liuyao/calculators/FushenCalculator.ts:42 | Filtering keeps a list in increasing key order |
| TianDiPan.MonthGeneral | src/services/daliuren/calculators/TianDiPanCalculator.ts:66-74 | A known solar term gives its table entry; an unknown one gives 子 |
| TianDiPan.HeavenPlateShape | src/services/daliuren/calculators/TianDiPanCalculator.ts:80-103 | The month general sits over the hour branch and the heaven plate runs clockwise from there |
| TianDiPan.HeavenPlateIsPermutation | src/services/daliuren/calculators/TianDiPanCalculator.ts:80-103 | Every branch appears on the heaven plate exactly once |
| TianDiPan.FuYinPlate | src/services/daliuren/calculators/TianDiPanCalculator.ts:80-103 | When the month general equals the hour, the heaven plate is the earth plate (伏吟) |
| TianDiPan.FanYinPlate | src/services/daliuren/calculators/TianDiPanCalculator.ts:80-103 | When the month general is opposite the hour, every position holds its opposite branch (返吟) |
| TianDiPan.CalculateTianPan | src/services/daliuren/calculators/TianDiPanCalculator.ts:80-103 | The two loops produce exactly the heaven plate of the month general and the hour |
| TianDiPan.GeneralLayerFollowsOrder | src/services/daliuren/calculators/TianDiPanCalculator.ts:127-143 | The i-th general of the chosen order sits i places clockwise from the noble's start |
| TianDiPan.ReverseOrderRunsBackwards | src/services/daliuren/calculators/TianDiPanCalculator.ts:132 | Read backwards from 貴, the reversed list is the traditional forward order |
| TianDiPan.GeneralLayerDirection | src/services/daliuren/calculators/TianDiPanCalculator.ts:122-143 | With the traditional order, 順布 runs 貴蛇雀… clockwise and 逆布 runs the same order counter-clockwise, chosen by whether the branch over the start is 巳…戌 |
| TianDiPan.GeneralLayerIsPermutation | src/services/daliuren/calculators/TianDiPanCalculator.ts:114-143 | The noble stands on its day or night start, and every general appears on the layer |
| TianDiPan.CalculateTianJiang | src/services/daliuren/calculators/TianDiPanCalculator.ts:109-146 | The loops produce exactly the general layer in the direction the heaven plate dictates |
| TianDiPan.ByEarthLookup | src/services/daliuren/calculators/TianDiPanCalculator.ts:151-168 | The record's keys are the earth branches, and each key holds the layer value at its last occurrence |
| TianDiPan.ByEarthOfEarthOrder | src/services/daliuren/calculators/TianDiPanCalculator.ts:151-168 | On the fixed earth plate, every branch is a key and holds the layer entry at its own position |
| TianDiPan.BuildByEarth | src/services/daliuren/calculators/TianDiPanCalculator.ts:151-168 | The loop produces exactly the branch-keyed record of the layer |
| TianDiPan.PlateProperties | src/services/daliuren/calculators/TianDiPanCalculator.ts:27-61 | The plate's records agree with its layers, the month general sits over the hour and the noble on its start |
| TianDiPan.Calculate | src/services/daliuren/calculators/TianDiPanCalculator.ts:27-61 | Builds the plate from the month general, the heaven plate, day or night, the generals and the two records |
| SiKe.Relation | src/services/daliuren/calculators/SiKeCalculator.ts:81-114 | Each relation word maps to its lodge relation; a missing or unknown word gives 比和 |
| SiKe.RelationMeaning | src/services/daliuren/calculators/SiKeCalculator.ts:81-114 | With the standard relation table: 上尅下 iff the upper overcomes the lower, 下賊上 iff the reverse, 比和 iff same phase, 上生下/下生上 iff one generates the other |
| SiKe.Calculate | src/services/daliuren/calculators/SiKeCalculator.ts:23-76 | Lodge 1 stands on the day stem's palace, lodge 2 on lodge 1's upper, lodge 3 on the day branch, lodge 4 on lodge 3's upper; each upper and general is read off the plate |
| SiKe.FuYinRecord | src/services/daliuren/calculators/SiKeCalculator.ts:28 | On a 伏吟 plate the heaven record maps every branch to itself |
| SiKe.FanYinRecord | src/services/daliuren/calculators/SiKeCalculator.ts:28 | On a 返吟 plate the heaven record maps every branch to its opposite |
| SiKe.FuYinLodges | src/services/daliuren/calculators/SiKeCalculator.ts:31-47 | On a 伏吟 plate lodges 1 and 2 show the stem's palace and lodges 3 and 4 the day branch |
| SiKe.FanYinLodges | src/services/daliuren/calculators/SiKeCalculator.ts:31-47 | On a 返吟 plate each upper is opposite its earth position, and lodges 2 and 4 return to the palace and the day branch |
| SiKe.CountRelationPositive | src/services/daliuren/calculators/SiKeCalculator.ts:119-155 | A relation's count is positive iff some lodge has it |
| SiKe.CountsAddUp | src/services/daliuren/calculators/SiKeCalculator.ts:134-152 | The five counts add up to the number of lodges |
| SiKe.AnalyzeRelations | src/services/daliuren/calculators/SiKeCalculator.ts:119-155 | The loop's five counters equal the number of lodges with each relation |
| SanChuanRules.YiMaMeaning | src/services/daliuren/calculators/SanChuanCalculator.ts:461-469 | The post horse is the one corner branch 寅巳申亥 whose opposite lies in the day branch's triad, and the whole triad shares it |
| SanChuanRules.ChongCount | src/services/daliuren/calculators/SanChuanCalculator.ts:204-213 | The clash count over the first n positions is at most n |
| SanChuanRules.CheckFanYin | src/services/daliuren/calculators/SanChuanCalculator.ts:204-215 | The loop's answer is "at least six positions carry their clashing branch" |
| SanChuanRules.OppositeAtPosition | src/services/daliuren/calculators/SanChuanCalculator.ts:204-215 | On a plate built from a month general and an hour, a position shows its opposite iff the month general is opposite the hour |
| SanChuanRules.ChongCountOfPlate | src/services/daliuren/calculators/SanChuanCalculator.ts:204-215 | On such a plate, with the standard clash table, the count is all positions or none |
| SanChuanRules.FanYinIffOpposite | src/services/daliuren/calculators/SanChuanCalculator.ts:204-215 | With the standard clash table, the half-count test holds exactly when the month general is opposite the hour |
| SanChuanRules.WalkBound | src/services/daliuren/calculators/SanChuanCalculator.ts:286-318 | A depth is at most 11, and a stem lower spirit (index -1) walks as from 戌 |
| SanChuanRules.StepBack | src/services/daliuren/calculators/SanChuanCalculator.ts:312-314 | One counter-clockwise step brings the walk strictly closer to its end |
| SanChuanRules.CalculateSheHaiDepth | src/services/daliuren/calculators/SanChuanCalculator.ts:286-318 | The loop's count equals the 涉害 depth: the branches the upper branch overcomes, walking counter-clockwise from the lower spirit to the upper branch |
| SanChuanRules.FirstDeepest | src/services/daliuren/calculators/SanChuanCalculator.ts:259-269 | The chosen candidate holds the greatest depth, and every earlier candidate a smaller one (the head of a stable descending sort) |
| SanChuanRules.XunKongMarker | src/services/daliuren/calculators/SanChuanCalculator.ts:188-199 | A marker is given iff the branch is in the void pair of the day's decade, and it is the stem at the branch's index modulo 10 |
| SanChuanRules.DecadeHead | src/services/daliuren/calculators/SanChuanCalculator.ts:190-192 | The decade start of cycle index k is k minus k modulo 10, and its branch is the day branch moved back by the stem |
| SanChuanRules.XunKongRule | src/services/daliuren/calculators/SanChuanCalculator.ts:188-199 | With the standard cycle and void table, a branch is marked iff it is 10 or 11 places after the decade head; a pillar outside the cycle marks nothing |
| SanChuanRules.CycleVoidPair | src/services/daliuren/calculators/SanChuanCalculator.ts:188-199 | On the standard tables the void pair of a cycle pillar is the two branches after its decade |
| SanChuan.FilterCount | src/services/daliuren/calculators/SanChuanCalculator.ts:227 | Filtering the lodges by a relation keeps as many lodges as that relation's count |
| SanChuan.Depths | src/services/daliuren/calculators/SanChuanCalculator.ts:254-257 | One depth per candidate, each the candidate's 涉害 depth |
| SanChuan.Narrowing | src/services/daliuren/calculators/SanChuanCalculator.ts:236-256 | The 涉害 candidates (the offenders of the day stem's polarity when there are any, else all offenders) are exactly the lodges passing `Candidate`, in lodge order |
| SanChuan.SingleSamePolarity | src/services/daliuren/calculators/SanChuanCalculator.ts:236-241 | Exactly one same-polarity offender survives the two filters iff exactly one offending lodge has the day stem's polarity |
| SanChuan.CandidateHead | src/services/daliuren/calculators/SanChuanCalculator.ts:229-249 | The lone offender, else the first same-polarity offender, else the first offender, is the first candidate in lodge order |
| SanChuan.DeepestAt | src/services/daliuren/calculators/SanChuanCalculator.ts:256-275 | Given the candidates' lodge positions in order, the lodge at the first maximal depth is the first of the deepest, and a tie at the top holds iff another candidate is as deep |
| SanChuan.DeepestOfFilter | src/services/daliuren/calculators/SanChuanCalculator.ts:256-275 | The stable descending sort's head is the earliest candidate of greatest 涉害 depth, and 察微 (a tie at the top) holds iff another candidate has that depth |
| SanChuan.MultipleZeiKe | src/services/daliuren/calculators/SanChuanCalculator.ts:220-276 | 賊尅 iff exactly one offence (重審 for 下賊上, 元首 for 上尅下); 比用/知一 iff two or more offences of which exactly one has the day stem's polarity; otherwise 涉害, with 察微 or 見機; the initial transmission is always an offending lodge's upper branch |
| SanChuan.MultipleZeiKeChoice | src/services/daliuren/calculators/SanChuanCalculator.ts:220-276 | The lodge MultipleZeiKe takes is a candidate (the same-polarity offenders if any, else all offenders): the first one for 賊尅 and 比用, and for 涉害 the first of the deepest, 察微 iff another candidate is as deep |
| SanChuan.HandleMultipleZeiKe | src/services/daliuren/calculators/SanChuanCalculator.ts:220-276 | The method's filtering, depth loop and choice give exactly the MultipleZeiKe pick, and so obey its choice rules |
| SanChuan.RemoteFrom | src/services/daliuren/calculators/SanChuanCalculator.ts:333-350 | The result is the first lodge whose upper branch overcomes or is overcome by the day stem, and none exists iff no lodge has either |
| SanChuan.HandleNoZeiKe | src/services/daliuren/calculators/SanChuanCalculator.ts:323-366 | The loop over the lodges gives exactly the NoZeiKe pick: the first remote lodge, else 昴星 |
| SanChuan.FanYinOffence | src/services/daliuren/calculators/SanChuanCalculator.ts:396-446 | Under 返吟 the pick is the upper branch of the first offending lodge of the day stem's polarity, or of the first offending lodge when none has it |
| SanChuan.FanYinPick | src/services/daliuren/calculators/SanChuanCalculator.ts:379-455 | Always 返吟; 絕嗣 iff the 返吟八專 flag; 絕嗣 and 無親 take the post horse; otherwise any 下賊上 gives 無依 with FanYinOffence over the 下賊上 lodges, and only when there is none the 上尅下 lodges are used |
| SanChuan.FuYinPick | src/services/daliuren/calculators/SanChuanCalculator.ts:474-496 | 伏吟: a yang day takes the stem's palace (自任), a yin day the day branch (杜傳) |
| SanChuan.BaZhuanPick | src/services/daliuren/calculators/SanChuanCalculator.ts:501-523 | 八專 帷薄: two places clockwise from the day branch on a yang day, two counter-clockwise on a yin day |
| SanChuan.Calculate | src/services/daliuren/calculators/SanChuanCalculator.ts:44-154 | The method gives exactly SanChuanOf: the gate pick, the middle and final transmissions and their entries |
| SanChuan.CountBelowLength | src/services/daliuren/calculators/SanChuanCalculator.ts:85-116 | A relation missing from one lodge has a count below four |
| SanChuan.OffenceGates | src/services/daliuren/calculators/SanChuanCalculator.ts:91-114 | Past the whole-plate gates, any 下賊上 sends the 下賊上 lodges to MultipleZeiKe (a lone one is 重審 even beside 上尅下 lodges); only with none do the 上尅下 lodges go there (a lone one is 元首) |
| SanChuan.GatesInOrder | src/services/daliuren/calculators/SanChuanCalculator.ts:72-126 | The gates are tried in the source's order: 返吟 (with 返吟八專), 伏吟, 八專, the offences, then the remote relations and 昴星; 別責 is never chosen |
| SanChuan.TransmissionChain | src/services/daliuren/calculators/SanChuanCalculator.ts:128-140 | The middle transmission follows the initial and the final the middle: over the plate normally, by clash under 返吟, where the final returns to the initial |
| SanChuan.FuYinLesson | src/services/daliuren/calculators/SanChuanCalculator.ts:474-496 | 伏吟 end to end: all three transmissions are the stem's palace on a yang day and the day branch on a yin day |
| SanChuan.FanYinLesson | src/services/daliuren/calculators/SanChuanCalculator.ts:70-140 | 返吟 end to end: the middle transmission clashes with the initial and the final returns to it |
| SanChuan.KinMeaning | src/services/daliuren/calculators/SanChuanCalculator.ts:159-183 | With the standard tables, a transmission's kin is the five-phase relation of the day stem's phase to its branch's |
| ShenSha.YueMaPairs | src/services/daliuren/calculators/ShenShaCalculator.ts:36-54 | The pair search always finds the day branch, so the 寅 default is never used, and a branch and its opposite share their 月馬 |
| ShenSha.OppositeSamePair | src/services/daliuren/calculators/ShenShaCalculator.ts:38-45 | A branch and its opposite lie the same number of places after 寅, modulo 6 |
| ShenSha.PairOf | src/services/daliuren/calculators/ShenShaCalculator.ts:47-51 | The search finds a branch in pair (branch − 寅) mod 6 |
| ShenSha.PairIndex | src/services/daliuren/calculators/ShenShaCalculator.ts:38-51 | Pair (branch − 寅) mod 6 is the first pair that holds the branch |
| ShenSha.PairKeyFromSkips | src/services/daliuren/calculators/ShenShaCalculator.ts:47-51 | The search passes over the pairs that do not hold the branch and stops at the first that does |
| ShenSha.DingMaIsDingOfDecade | src/services/daliuren/calculators/ShenShaCalculator.ts:59-75 | With the standard cycle, 丁馬 is the branch of the 丁 pillar of the day's decade; a pillar outside the cycle gives 卯 |
| ShenSha.DingMaCase | src/services/daliuren/calculators/ShenShaCalculator.ts:65-72 | Each decade's table entry is the branch of its 丁 pillar, three places after its 甲 head |
| ShenSha.HuaGaiShape | src/services/daliuren/calculators/ShenShaCalculator.ts:80-87 | 華蓋 is 丑 for 巳酉丑, 未 for 亥卯未 and 戌 for the other six branches |
| ShenSha.ShanDianPairs | src/services/daliuren/calculators/ShenShaCalculator.ts:92-99 | 閃電 gives each consecutive pair 子丑, 寅卯, …, 戌亥 the same branch |
| ShenSha.DeitiesByBranch | src/services/daliuren/calculators/ShenShaCalculator.ts:14-24 | Every deity but 丁馬 depends only on the day branch |
| DaliurenService.FormatLunarMonth | src/services/daliuren/DaliurenService.ts:77-80 | Months 1..12 get their Chinese name plus 月; any other month gives "undefined月" |
| DaliurenService.FormatLunarMonthInjective | src/services/daliuren/DaliurenService.ts:77-80 | Distinct months in 1..12 get distinct names, none equal to the out-of-range text |
| DaliurenService.Calculate | src/services/daliuren/DaliurenService.ts:35-72 | The result holds the plate, the lodges, the transmissions and the deities computed from the day and hour pillars, with the formatted month and day or night |
| Xunkong.XunStart | src/services/liuyao/calculators/XunkongCalculator.ts:41-47 | The decade head's branch is the day branch moved back by the stem's index |
| Xunkong.Calculate | src/services/liuyao/calculators/XunkongCalculator.ts:41-55 | The void pair is the two consecutive branches 10 and 11 places after the decade head, neither of them in the decade itself |
| Xunkong.MatchesDecadeTable | src/services/liuyao/calculators/XunkongCalculator.ts:41-55 | For a real pillar (stem and branch of the same polarity) the pair agrees with the classic six-decade table |
| Xunkong.SameDecadeSameVoid | src/services/liuyao/calculators/XunkongCalculator.ts:41-55 | The next pillar of the same decade has the same void pair |
| Xunkong.TwoVoidBranches | src/services/liuyao/calculators/XunkongCalculator.ts:60-62 | Exactly two branches are void for any day |
| Wangshuai.Calculate | src/services/liuyao/calculators/WangshuaiCalculator.ts:50-82 | 旺 iff same phase as the reference branch, 相 iff the reference generates the line, 休 iff the line generates it, 囚 iff the line overcomes it, 死 iff it overcomes the line; the fallback is unreachable |
| Wangshuai.StateIsKinOfReference | src/services/liuyao/calculators/WangshuaiCalculator.ts:50-82 | The state is the line's kin seen from the reference branch's phase, renamed |
| Wangshuai.StateInjective | src/services/liuyao/calculators/WangshuaiCalculator.ts:50-82 | For a fixed reference branch, distinct phases get distinct states |
| Wangshuai.StrongWeakComplement | src/services/liuyao/calculators/WangshuaiCalculator.ts:99-108 | Every state is exactly one of strong (旺相) and weak (休囚死) |
| Liuqin.Calculate | src/services/liuyao/calculators/LiuqinCalculator.ts:38-68 | 兄弟 iff same phase, 父母 iff the line generates the palace, 子孫 iff the palace generates the line, 官鬼 iff the line overcomes the palace, 妻財 iff the palace overcomes the line; the fallback is unreachable |
| Liuqin.KinBijection | src/services/liuyao/calculators/LiuqinCalculator.ts:38-68 | For a fixed palace phase, kin and line phase determine each other |
| Liuqin.ShortNameInjective | src/services/liuyao/calculators/LiuqinCalculator.ts:71-80 | Each short name is one character and distinct kins get distinct short names |
| Jintuishen.Calculate | src/services/liuyao/calculators/JintuishenCalculator.ts:63-75 | 進神 iff the change is the original's 進神 entry; 退神 iff it is not but is the 退神 entry; otherwise none |
| Jintuishen.TablesInverse | src/services/liuyao/calculators/JintuishenCalculator.ts:22-53 | For distinct branches, y is x's 進神 iff x is y's 退神 |
| Jintuishen.UnchangedBranch | src/services/liuyao/calculators/JintuishenCalculator.ts:32-75 | An unchanged branch counts as 進神 for 子卯午酉 and as 退神 for 亥寅巳申 (the placeholder entries), and as neither for 丑辰未戌 |
| Jintuishen.RealChangeDirection | src/services/liuyao/calculators/JintuishenCalculator.ts:22-53 | A real 進神 moves one or three places forward, a real 退神 one or three places back |
| Liushen.StartIndex | src/services/liuyao/calculators/LiushenCalculator.ts:21-32 | Every day stem starts at one of the six spirits |
| Liushen.Calculate | src/services/liuyao/calculators/LiushenCalculator.ts:40-45 | Line p gets the spirit p − 1 places after the stem's start, cyclically; with the truncating remainder a negative index gives no spirit unless it is a multiple of six, which reads 青龍 (the −0 entry) |
| Liushen.OrderIndex | src/services/liuyao/calculators/LiushenCalculator.ts:18 | Every spirit has a place in the order 青龍朱雀勾陳螣蛇白虎玄武 |
| Liushen.AllSpirits | src/services/liuyao/calculators/LiushenCalculator.ts:52-58 | Six spirits, the i-th being the spirit of line i + 1 |
| Liushen.CalculateAll | src/services/liuyao/calculators/LiushenCalculator.ts:52-58 | The loop produces exactly the six spirits of lines 1..6 |
| Liushen.OrderDistinct | src/services/liuyao/calculators/LiushenCalculator.ts:18 | The six spirits of the order are distinct |
| Liushen.AllSpiritsCycle | src/services/liuyao/calculators/LiushenCalculator.ts:40-58 | Line 1 gets the start spirit, the lines run through the order cyclically, and all six spirits appear once each |
| Najia.Calculate | src/services/liuyao/calculators/NajiaCalculator.ts:26-39 | Lines 1..3 take the lower trigram's inner branches and 4..6 the upper's outer ones, agreeing with getNaJia; the phase is the branch's; other positions give nothing |
| Najia.AllLines | src/services/liuyao/calculators/NajiaCalculator.ts:47-53 | Six entries, the i-th being the result for line i + 1 |
| Najia.AllLinesBranches | src/services/liuyao/calculators/NajiaCalculator.ts:47-53 | The six branches are the inner then the outer table entries |
| Najia.CalculateAll | src/services/liuyao/calculators/NajiaCalculator.ts:47-53 | The loop produces exactly the six entries |
| Najia.GetYinYang | src/services/liuyao/calculators/NajiaCalculator.ts:81-83 | A line is yang iff its value is 7 or 9 |
| Najia.GetChangedYinYang | src/services/liuyao/calculators/NajiaCalculator.ts:95-99 | Only moving lines (6, 9) change, and a change flips the line |
| Najia.LineValueDetermined | src/services/liuyao/calculators/NajiaCalculator.ts:81-90 | Polarity and movement together determine the line value |
| Najia.YangPattern | src/services/liuyao/calculators/NajiaCalculator.ts:65 | Six line values give six yang flags |
| Najia.GetGuaFromYaoValues | src/services/liuyao/calculators/NajiaCalculator.ts:63-76 | The trigrams found have exactly the values' yang pattern as their six lines, bottom first |
| Najia.GuaFromYaoValuesRoundTrip | src/services/liuyao/calculators/NajiaCalculator.ts:63-76 | Values whose pattern is a hexagram's lines give back that hexagram |
| Guagong.Binary | src/services/liuyao/data/guagong.ts:33-42 | Each trigram's number is in 0..7 |
| Guagong.BinaryToTrigram | src/services/liuyao/data/guagong.ts:49-58 | A number is a key iff it is in 0..7, and its trigram has that number |
| Guagong.BinaryBijection | src/services/liuyao/data/guagong.ts:33-58 | The two records are inverse bijections between the eight trigrams and 0..7 |
| Guagong.TrigramLines | src/services/liuyao/data/guagong.ts:21-42 | Three lines per trigram, bottom first |
| Guagong.LinesToBinary | src/services/liuyao/data/guagong.ts:21-42 | Lines read bottom line as the highest bit give a number in 0..7 |
| Guagong.LinesRoundTrip | src/services/liuyao/data/guagong.ts:21-42 | Reading a trigram's lines back gives its BAGUA_BINARY value, so different trigrams have different lines |
| Guagong.Key | src/services/liuyao/data/guagong.ts:327 | The key is in 0..63, with the upper trigram's number as the high three bits and the lower's as the low three |
| Guagong.HexLines | src/services/liuyao/data/guagong.ts:326-328 | Six lines: the lower trigram's then the upper's |
| Guagong.Gua64Entry | src/services/liuyao/data/guagong.ts:109-269 | Every key 0..63 has an entry, filed under the key of its own trigrams, with rank 1..8, the 世 line of its rank and the 應 line three from it; rank 1 is the pure hexagram of its palace |
| Guagong.Gua64EntryLines | src/services/liuyao/data/guagong.ts:109-269 | Every entry's lines are its palace's pure hexagram with the lines of its rank changed |
| Guagong.KeyOfLines | src/services/liuyao/data/guagong.ts:107 | Six lines give a key in 0..63 |
| Guagong.PalaceKey | src/services/liuyao/data/guagong.ts:109-269 | The eight-palace construction gives a key in 0..63 |
| Guagong.QianPalace | src/services/liuyao/data/guagong.ts:109-269 | The eight ranks of the 乾 palace are in the table |
| Guagong.DuiPalace | src/services/liuyao/data/guagong.ts:109-269 | The eight ranks of the 兌 palace are in the table |
| Guagong.LiPalace | src/services/liuyao/data/guagong.ts:109-269 | The eight ranks of the 離 palace are in the table |
| Guagong.ZhenPalace | src/services/liuyao/data/guagong.ts:109-269 | The eight ranks of the 震 palace are in the table |
| Guagong.XunPalace | src/services/liuyao/data/guagong.ts:109-269 | The eight ranks of the 巽 palace are in the table |
| Guagong.KanPalace | src/services/liuyao/data/guagong.ts:109-269 | The eight ranks of the 坎 palace are in the table |
| Guagong.GenPalace | src/services/liuyao/data/guagong.ts:109-269 | The eight ranks of the 艮 palace are in the table |
| Guagong.KunPalace | src/services/liuyao/data/guagong.ts:109-269 | The eight ranks of the 坤 palace are in the table |
| Guagong.PalaceComplete | src/services/liuyao/data/guagong.ts:109-269 | Every palace has an entry of every rank 1..8 |
| Guagong.SameRankSameTrigrams | src/services/liuyao/data/guagong.ts:109-269 | Two entries of the same palace and rank built by the construction have the same trigrams |
| Guagong.PalaceRankUnique | src/services/liuyao/data/guagong.ts:109-269 | No palace has two entries of the same rank, so each palace holds exactly eight |
| Guagong.GetGua64Info | src/services/liuyao/data/guagong.ts:326-329 | The entry always exists and carries the two trigrams asked for, a rank 1..8 and distinct 世 and 應 lines |
| Guagong.EntryOfTrigrams | src/services/liuyao/data/guagong.ts:326-329 | The entry under the key of two trigrams exists and carries those trigrams |
| Guagong.ShiYingApart | src/services/liuyao/data/guagong.ts:109-269 | The 世 line of every rank and the 應 line three places from it are two different lines in 1..6 |
| Guagong.ByYaoReadsTrigramsUpsideDown | src/services/liuyao/data/guagong.ts:335-348 | As written, the lines of 震為雷 come back as 艮為山 |
| Guagong.Gua64InfoByYao | src/services/liuyao/data/guagong.ts:335-348 | Corrected: the entry found has exactly the given six lines |
| Guagong.HexLinesOfHalves | src/services/liuyao/data/guagong.ts:335-348 | A hexagram whose trigrams have the lower and the upper three lines has the six lines |
| Guagong.LinesOfBinary | src/services/liuyao/data/guagong.ts:49-58 | A trigram found from the number of three lines has exactly those lines |
| Guagong.ByYaoRoundTrip | src/services/liuyao/data/guagong.ts:335-348 | Corrected: looking a hexagram up by its own lines gives back its entry |
| Guagong.NaJiaInner | src/services/liuyao/data/guagong.ts:289-298 | Three inner 納甲 branches per trigram |
| Guagong.NaJiaOuter | src/services/liuyao/data/guagong.ts:289-298 | Three outer 納甲 branches per trigram |
| Guagong.NaJiaProgression | src/services/liuyao/data/guagong.ts:275-298 | A trigram's six branches advance two places at a time: forward for 乾震坎艮, backward for 坤巽離兌 |
| Guagong.GetNaJia | src/services/liuyao/data/guagong.ts:356-360 | Positions 1..3 read the inner or outer entry; any other position reads nothing |
| Fushen.Rank | src/services/liuyao/calculators/FushenCalculator.ts:19 | Every kin has a place 0..4 in the order 父母兄弟子孫妻財官鬼 |
| Fushen.RankIndexes | src/services/liuyao/calculators/FushenCalculator.ts:19 | The place of a kin and the kin at a place invert each other |
| Fushen.CalculateRelation | src/services/liuyao/calculators/FushenCalculator.ts:122-150 | 比和 iff same phase, 飛生伏/飛克伏 iff the visible line generates/overcomes the hidden one, 伏生飛/伏克飛 iff the reverse; the fallback is unreachable |
| Fushen.GetShouGuaNaJia | src/services/liuyao/calculators/FushenCalculator.ts:100-114 | The two loops produce exactly the six 納甲 entries of the palace's pure hexagram |
| Fushen.KinOfLines | src/services/liuyao/calculators/FushenCalculator.ts:52-54 | One kin per line |
| Fushen.KinsOf | src/services/liuyao/calculators/FushenCalculator.ts:56-92 | One kin per hidden-spirit entry |
| Fushen.EntriesKins | src/services/liuyao/calculators/FushenCalculator.ts:58-92 | The entries' kins are exactly the missing kins found on the pure hexagram, in order |
| Fushen.EntriesLines | src/services/liuyao/calculators/FushenCalculator.ts:60-81 | Each entry is built from the first line of the pure hexagram carrying its kin |
| Fushen.EntriesAppend | src/services/liuyao/calculators/FushenCalculator.ts:58-92 | One more missing kin appends at most its own entry |
| Fushen.CollectEntries | src/services/liuyao/calculators/FushenCalculator.ts:56-94 | The loop over the missing kins produces exactly the specified entries |
| Fushen.Calculate | src/services/liuyao/calculators/FushenCalculator.ts:32-95 | The method produces exactly the specified hidden spirits, empty when no kin is missing |
| Fushen.PurePhases | src/services/liuyao/calculators/FushenCalculator.ts:100-114 | The pure hexagram has six line phases |
| Fushen.PurePhasesComplete | src/services/liuyao/calculators/FushenCalculator.ts:100-114 | Every phase occurs among a pure hexagram's six lines |
| Fushen.PureHexagramHasAllKin | src/services/liuyao/calculators/FushenCalculator.ts:62-64 | Every kin occurs on a palace's pure hexagram, so the skip at line 62 never fires |
| Fushen.FuShenEmpty | src/services/liuyao/calculators/FushenCalculator.ts:40-92 | The list is empty iff all five kins are present |
| Fushen.FilterAll | src/services/liuyao/calculators/FushenCalculator.ts:58-65 | A filter that keeps everything keeps the list unchanged |
| Fushen.FuShenOrder | src/services/liuyao/calculators/FushenCalculator.ts:42-58 | The hidden spirits come in the order 父母兄弟子孫妻財官鬼 |
| Fushen.FuShenEntries | src/services/liuyao/calculators/FushenCalculator.ts:58-92 | Each entry is a missing kin on its first line of the pure hexagram, with that line's branch, the visible line at the same position and their relation |
| LiuyaoService.CalculateTimeInfo | src/services/liuyao/LiuyaoService.ts:162-189 | The pillars are passed through, the day stem and month branch are read off them, and the void pair is the day pillar's, which never holds the day's own branch |
| LiuyaoService.GuaInfoOf | src/services/liuyao/LiuyaoService.ts:75-87 | The trigrams are the ones asked for, the palace phase is the palace's, 遊魂 iff rank 7, 歸魂 iff rank 8, and 世 and 應 are two different lines |
| LiuyaoService.GetGuaFromYinYang | src/services/liuyao/LiuyaoService.ts:259-279 | The hexagram found has exactly the given six lines, bottom first |
| LiuyaoService.ChangedPattern | src/services/liuyao/LiuyaoService.ts:93-104 | A line's changed polarity differs from its cast polarity iff the line moves |
| LiuyaoService.MovingPositions | src/services/liuyao/LiuyaoService.ts:90-104 | The moving positions are the lines with value 6 or 9, numbered from one, in increasing order |
| LiuyaoService.SameBitOrder | src/services/liuyao/LiuyaoService.ts:259-279 | The cast hexagram is read with the same bit order as getGuaFromYaoValues, and with no moving line the changed trigrams would be the cast ones |
| LiuyaoService.YaoAtOf | src/services/liuyao/LiuyaoService.ts:203-246 | The loop's entry for a line is built from that line's 納甲, changed branch and spirit |
| LiuyaoService.YaoListOf | src/services/liuyao/LiuyaoService.ts:194-250 | The list has six entries |
| LiuyaoService.CalculateYaoList | src/services/liuyao/LiuyaoService.ts:194-250 | The loop pushes exactly the six specified line records, bottom first |
| LiuyaoService.YaoAtLine | src/services/liuyao/LiuyaoService.ts:206-246 | Each line's polarity is the cast line's, its branch and phase the hexagram's 納甲, its kin the one of that phase, 世/應 exactly at the hexagram's positions, and a changed branch only when the line moves |
| LiuyaoService.ShiYingAt | src/services/liuyao/LiuyaoService.ts:241-242 | Line i + 1 is 世 (應) iff its position is the hexagram's 世 (應) |
| LiuyaoService.OneShiOneYing | src/services/liuyao/LiuyaoService.ts:241-242 | Exactly one line is marked 世 and exactly one 應 |
| LiuyaoService.ShiYingLines | src/services/liuyao/LiuyaoService.ts:241-242 | Over a hexagram with distinct 世 and 應 lines, exactly one line is 世 and one is 應 |
| LiuyaoService.LiuQinOf | src/services/liuyao/LiuyaoService.ts:136 | One kin per line |
| LiuyaoService.NaJiaOf | src/services/liuyao/LiuyaoService.ts:137 | One 納甲 entry per line |
| LiuyaoService.BenGuaOf | src/services/liuyao/LiuyaoService.ts:74-87 | The cast hexagram's lines are the values' yang pattern |
| LiuyaoService.BianGuaOf | src/services/liuyao/LiuyaoService.ts:107-123 | When present, the changed hexagram's lines are the changed polarities |
| LiuyaoService.MovingAndChanged | src/services/liuyao/LiuyaoService.ts:90-104 | The loop yields exactly the moving positions and the changed polarities |
| LiuyaoService.Calculate | src/services/liuyao/LiuyaoService.ts:55-157 | The result holds the cast hexagram, the moving positions, the changed hexagram, the line list built from them and the hidden spirits of the palace |
| LiuyaoService.BianGuaMoving | src/services/liuyao/LiuyaoService.ts:107-123 | A changed hexagram exists iff some line moves, and it differs from the cast one exactly on the moving lines |
| LiuyaoService.FuShenOfLines | src/services/liuyao/LiuyaoService.ts:136-147 | The hidden spirits are the kins missing from the six lines: none iff all five appear, and none has the kin of a line |
| MeihuaBagua.XianTianNumber | src/services/meihua/data/bagua.ts:4-19 | Every trigram has a Former Heaven number 1..8, and the table entry at that number is the trigram |
| MeihuaBagua.DataNumbered | src/services/meihua/data/bagua.ts:10-19 | Entry i carries number i + 1, its trigram's Former Heaven number and its trigram's phase |
| MeihuaBagua.JsRem | src/services/meihua/data/bagua.ts:24 | The JavaScript remainder: strictly between −n and n, Dafny's for a non-negative left side, never positive for a negative one, and zero exactly when the number is a multiple |
| MeihuaBagua.NegatedRemainder | src/services/meihua/data/bagua.ts:24 | A number and its negation are multiples of n together |
| MeihuaBagua.GetBaGuaByNumber | src/services/meihua/data/bagua.ts:22-26 | An entry is found iff the number is positive or a multiple of 8 (a negative non-multiple indexes before the array); it is the entry numbered ((num − 1) mod 8) + 1 |
| MeihuaBagua.GetBaGuaByName | src/services/meihua/data/bagua.ts:29-33 | The entry found is the one with that name, and a name of the type is always found |
| MeihuaBagua.FindEntry | src/services/meihua/data/bagua.ts:30 | The search stops at the entry with the trigram's name |
| MeihuaBagua.TrigramOfChar | src/services/meihua/data/bagua.ts:57 | A character read as a trigram is that trigram's name |
| MeihuaBagua.NameCharRoundTrip | src/services/meihua/data/bagua.ts:57 | A trigram's name character reads back as the trigram |
| MeihuaBagua.Gua64Names | src/services/meihua/data/bagua.ts:36-53 | A key is in the table iff it is two trigram names |
| MeihuaBagua.GetGua64Name | src/services/meihua/data/bagua.ts:56-59 | A pure hexagram is named X為Y from its name and image; any other is named by the upper and lower images |
| MeihuaBagua.NameTableComplete | src/services/meihua/data/bagua.ts:36-59 | All 64 keys are in the table, so the fallback name is never used |
| MeihuaBagua.NamesDistinct | src/services/meihua/data/bagua.ts:36-53 | Distinct trigram pairs have distinct hexagram names |
| MeihuaBagua.BaguaBinary | src/services/meihua/data/bagua.ts:62-71 | Three bits per trigram, top line first |
| MeihuaBagua.BinaryToBaGua | src/services/meihua/data/bagua.ts:74-81 | Any three bits give the trigram whose BAGUA_BINARY they are |
| MeihuaBagua.BinaryRoundTrip | src/services/meihua/data/bagua.ts:62-81 | binaryToBaGua inverts BAGUA_BINARY, and the eight triples are distinct |
| MeihuaBagua.Lines | src/services/meihua/data/bagua.ts:62-71 | A trigram's lines bottom first are its triple reversed, the same lines as the Liu Yao tables |
| MeihuaBagua.TrigramOfLines | src/services/meihua/data/bagua.ts:62-81 | Three lines bottom first give the trigram with those lines |
| MeihuaBagua.LinesInjective | src/services/meihua/data/bagua.ts:62-71 | Distinct trigrams have distinct lines |
| MeihuaBagua.SixLines | src/services/meihua/calculators/HuguaCalculator.ts:21-27 | A hexagram's six lines bottom first are the lower trigram's then the upper's, as in the Liu Yao tables |
| MeihuaBagua.HexagramOfLines | src/services/meihua/calculators/BianguaCalculator.ts:35-50 | Six lines give the hexagram with those lines |
| MeihuaBagua.SixLinesInjective | src/services/meihua/calculators/BianguaCalculator.ts:35-50 | Distinct hexagrams have distinct six lines |
| MeihuaQigua.GuaIndex | src/services/meihua/calculators/QiguaCalculator.ts:117-118 | The index keeps the number's residue mod 8; a positive number gives ((n − 1) mod 8) + 1 in 1..8; a multiple of 8 gives 8; a negative non-multiple gives a negative index |
| MeihuaQigua.MovingYaoOf | src/services/meihua/calculators/QiguaCalculator.ts:119 | The same rule modulo 6: a positive number gives a line 1..6, a multiple of 6 gives 6 |
| MeihuaQigua.FromNumber | src/services/meihua/calculators/QiguaCalculator.ts:106-121 | The numbers are reported, the line number defaults to upper + lower, and the indexes and moving line follow the modulo rules |
| MeihuaQigua.FromNumberInRange | src/services/meihua/calculators/QiguaCalculator.ts:106-121 | Positive numbers give trigram indexes 1..8 that name table entries, and a moving line 1..6 |
| MeihuaQigua.BranchOrdinal | src/services/meihua/calculators/QiguaCalculator.ts:13-22 | Branch ordinals run 1..12 from 子 |
| MeihuaQigua.FromTime | src/services/meihua/calculators/QiguaCalculator.ts:57-97 | sumForUpper is year ordinal + absolute lunar month + lunar day, sumForLower adds the hour ordinal, and the reported numbers are those sums |
| MeihuaQigua.FromTimeIsFromNumber | src/services/meihua/calculators/QiguaCalculator.ts:70-121 | The time cast is the number cast of (sumForUpper, sumForLower, sumForLower), and a lunar day of at least 1 keeps its indexes in range |
| MeihuaHugua.Calculate | src/services/meihua/calculators/HuguaCalculator.ts:20-47 | Corrected: the nuclear lower trigram has lines 2-4 of the hexagram and the upper lines 3-5, counted from the bottom |
| MeihuaHugua.InnerLinesOnly | src/services/meihua/calculators/HuguaCalculator.ts:29-41 | The nuclear trigrams overlap in two lines, and the result depends only on lines 2-5 |
| MeihuaHugua.PureFixedPoints | src/services/meihua/calculators/HuguaCalculator.ts:20-47 | 乾為天 and 坤為地 are their own nuclear hexagrams |
| MeihuaHugua.CalculateAsWritten | src/services/meihua/calculators/HuguaCalculator.ts:20-47 | As written: slices 1..3 and 2..4 of the concatenated top-first triples |
| MeihuaHugua.AsWrittenMisreadsLines | src/services/meihua/calculators/HuguaCalculator.ts:20-47 | As written, 地雷復 gives 山水蒙, where its nuclear hexagram is 坤為地 |
| MeihuaBiangua.Flip | src/services/meihua/calculators/BianguaCalculator.ts:31-33 | Only the line at the index changes, and an index outside 0..5 changes nothing |
| MeihuaBiangua.Bian | src/services/meihua/calculators/BianguaCalculator.ts:19-51 | Corrected: the changed hexagram's lines are the cast lines with line movingYao flipped |
| MeihuaBiangua.Calculate | src/services/meihua/calculators/BianguaCalculator.ts:19-51 | The in-place flip on a six-line array yields exactly the corrected changed hexagram |
| MeihuaBiangua.OtherTrigramKept | src/services/meihua/calculators/BianguaCalculator.ts:35-50 | A moving line 1..3 changes the lower trigram and keeps the upper, 4..6 the reverse, anything else changes nothing |
| MeihuaBiangua.BianInvolution | src/services/meihua/calculators/BianguaCalculator.ts:19-51 | Changing the same line twice gives back the cast hexagram |
| MeihuaBiangua.BianDiffers | src/services/meihua/calculators/BianguaCalculator.ts:31-50 | The changed hexagram differs from the cast one iff the moving line is in 1..6 |
| MeihuaBiangua.BianAsWritten | src/services/meihua/calculators/BianguaCalculator.ts:19-51 | As written: the flip is applied to the concatenated top-first triples |
| MeihuaBiangua.MirroredLine | src/services/meihua/calculators/BianguaCalculator.ts:31-33 | The line the as-written flip really moves: 1↔3, 4↔6, 2 and 5 fixed |
| MeihuaBiangua.AsWrittenMovesMirroredLine | src/services/meihua/calculators/BianguaCalculator.ts:19-51 | As written, moving line m is the corrected change of the mirrored line |
| MeihuaBiangua.AsWrittenMovesWrongLine | src/services/meihua/calculators/BianguaCalculator.ts:19-51 | As written, 天雷無妄 moving at line 1 gives 天火同人, where the change is 天地否 |
| MeihuaTiyong.GetRelation | src/services/meihua/calculators/TiyongCalculator.ts:75-101 | 比和 iff same phase, 生 iff use generates body, 洩 iff body generates use, 剋 iff use overcomes body, 耗 iff body overcomes use; the fallback is unreachable |
| MeihuaTiyong.RelationDeterminesUse | src/services/meihua/calculators/TiyongCalculator.ts:75-101 | For a fixed body phase, the relation determines the use phase |
| MeihuaTiyong.Calculate | src/services/meihua/calculators/TiyongCalculator.ts:44-70 | Body and use are different trigrams, the use is the lower one iff the moving line is at most 3, the phases follow, and the relation is the body/use relation |
| MeihuaService.GetBaGuaNumberByName | src/services/meihua/MeihuaService.ts:245-251 | The number is the trigram's Former Heaven number, and looking it up gives the trigram back |
| MeihuaService.NumberByNameInverse | src/services/meihua/MeihuaService.ts:245-251 | Name to number and number 1..8 to name invert each other |
| MeihuaService.GuaXiangOf | src/services/meihua/MeihuaService.ts:80-119 | The record carries the hexagram's name and its two trigram entries |
| MeihuaService.Assemble | src/services/meihua/MeihuaService.ts:75-239 | Succeeds iff both trigram indexes name table entries; then 本卦 is the two entries with getGua64Name, 變卦 and 互卦 are the corrected changed and nuclear hexagrams of 本卦, the moving line is reported, and 體用 follows it |
| MeihuaService.CalculateByTime | src/services/meihua/MeihuaService.ts:50-153 | Fails when year, month or day is falsy or the hour is missing; otherwise the cast of the lunar moment |
| MeihuaService.CalculateByNumber | src/services/meihua/MeihuaService.ts:158-240 | Fails when either number is falsy (including 0); otherwise succeeds iff each index names an entry, with the number cast's data |
| MeihuaService.Calculate | src/services/meihua/MeihuaService.ts:39-45 | The time method goes to the time cast, every other method to the number cast |
| MeihuaService.NumberCastChangesUseTrigram | src/services/meihua/MeihuaService.ts:158-240 | Positive numbers always give a result whose moving line is 1..6 and whose changed hexagram changes the use trigram and keeps the body trigram |
| QimenService.ValidateInput | src/services/qimen/QimenService.ts:51-88 | Succeeds iff year is an integer in 1900..2100, month 1..12, day 1..31, hour 0..23, a given minute 0..59, and a given chart type or leap method one of its two names; a bad year is reported first, a bad chart type once all numbers pass, and a bad leap method last, each as its message followed by "，当前值: " and the rejected value (the year as `shown` writes it, the strings verbatim) |
| QimenService.Prepare | src/services/qimen/QimenService.ts:93-119 | Fails exactly when validation fails; the chart type is 时盘 unless 日盘 is given, the leap method chaibu unless maoshan is given, and the reference pillar is the hour pillar for 时盘 and the day pillar for 日盘 |
| QimenService.GongDiZhiList | src/services/qimen/QimenService.ts:374-387 | Each palace holds one or two distinct branches |
| QimenService.PalaceOfBranch | src/services/qimen/QimenService.ts:374-387 | Every branch's Later Heaven palace is outside the centre |
| QimenService.BranchInOnePalace | src/services/qimen/QimenService.ts:374-387 | Outside the centre a palace lists a branch iff it is that branch's palace, so every branch appears exactly once; the centre repeats palace 2's branches |
| QimenService.IsKong | src/services/qimen/QimenService.ts:346-348 | A palace is void iff one of its branches is a void branch |
| QimenService.KongIsPalaceOfVoidBranch | src/services/qimen/QimenService.ts:346-387 | A palace is void iff it is the palace of one of the void branches, the centre counting as palace 2 |
| QimenService.GongOf | src/services/qimen/QimenService.ts:339-363 | The palace's entry carries its number, is void iff one of its branches is void, and has the horse iff it is the palace of the day branch's horse |
| QimenService.AssembleGongs | src/services/qimen/QimenService.ts:329-368 | The loop over 1..9 gives every palace its entry |
| QimenService.AssembledMarks | src/services/qimen/QimenService.ts:339-351 | At most one palace has the horse, and the centre is void iff 坤二 is |
| QimenService.FindGanGong | src/services/qimen/QimenService.ts:397-411 | 甲 is looked up as the 六儀 stem of its decade head; a stem with a palace other than 5 gets it, a missing stem or palace 5 gets ZHONG_GONG_JI |
| QimenService.GanGongOutsideCentre | src/services/qimen/QimenService.ts:397-411 | With the centre lodging in 坤二, the answer is never 5, is in 1..9 when the given palaces are, and 甲 lands where its 六儀 stem does |

## Left out

- Calendar conversion through `lunar-javascript` and src/utils/timeNormalization.ts is foreign library code. The pillars, solar term, lunar month, lunar date and time of day are inputs instead. This covers src/services/qimen/QimenService.ts:215-280, src/services/liuyao/LiuyaoService.ts:57-71 and :162-189, the `Lunar`/`Solar` part of src/services/meihua/calculators/QiguaCalculator.ts:48-67, and src/services/meihua/MeihuaService.ts:129-146 and :222-233.
- The `solarDate`, `lunarDate` and `timeInfo` display strings and the `lunarYear` field of the Meihua time detail come from the calendar library, so they are not modelled.
- The `console.warn` at src/services/daliuren/calculators/TianDiPanCalculator.ts:70 is a side effect. Only the default month general it accompanies is modelled.
- The unused `config`/`debug` constructor fields of the services carry no behaviour.
- The description texts (`WangshuaiCalculator.getDescription`, `TiyongCalculator.getDescription`, `JintuishenCalculator.get*Description`) and the Markdown renderers under src/output are display text.
- Meihua numbers are modelled as integers. JavaScript numbers with a fractional part are not covered, and neither is the arithmetic beyond 2^53.
- The concrete values of src/services/daliuren/data/constants.ts and src/services/qimen/data/constants.ts are not part of this model. The tables are parameters, and only the stated assumptions about them are used.
- The rest of `QimenService.calculate` is not modelled, because the calculators it calls are not part of this model. That covers getTimeInfo, the JuShu, JiuGong, SanQiLiuYi, JiuXing, BaMen, BaShen and GeJu calculators, `calculateXunShou` and the `XunShouInfo` assembly. The horse branch, the palace of a branch, the decade head and the 六儀 stem come from its unseen constants and are table parameters. The plates those calculators produce are inputs of `QimenService.AssembleGongs`.
- The `isLunar` flag of the Qimen input only selects a calendar conversion, so it is not modelled.
- TIAN_GAN and DI_ZHI (src/services/daliuren/data/constants.ts) are not part of this model. Their order 甲…癸 and 子…亥 is assumed by the representation: `Stem` and `Branch` are indexes, so `TIAN_GAN[i]` is `i` and `DI_ZHI.indexOf(b)` is `b`.
- QimenService.ValidateInput: JavaScript's number-to-string conversion inside the messages is not modelled. The text a rejected number shows is the parameter `shown`; string values are appended verbatim.
- MeihuaService.Assemble: builds the changed and nuclear hexagrams with the corrected `MeihuaBiangua.Bian` and `MeihuaHugua.Calculate`, not the code as written; its two callers inherit this; see Findings.
- MeihuaService.CalculateByNumber: uses the corrected changed and nuclear hexagrams (`MeihuaBiangua.Bian`, `MeihuaHugua.Calculate`), not the code as written; see Findings.
- MeihuaService.CalculateByTime: uses the corrected changed and nuclear hexagrams, as `MeihuaService.CalculateByNumber` does; see Findings.

## Findings

| source | as written | input that shows it | evidently intended | confidence | as-written member | corrected member |
|---|---|---|---|---|---|---|
| src/services/liuyao/data/guagong.ts:340-345 | `getGua64InfoByYao` reads the top line as the most significant bit of each trigram. `BAGUA_BINARY` and `NajiaCalculator.getGuaFromYaoValues` read it the other way round | the six lines of 震為雷 (yang, yin, yin; yang, yin, yin from the bottom) | the entry of 震為雷 | not executed; proved for the model as written | Guagong.ByYaoReadsTrigramsUpsideDown | Guagong.ByYaoRoundTrip |
| src/services/meihua/calculators/BianguaCalculator.ts:25-33 | the flip index `movingYao - 1` is applied to the triples, which list each trigram top line first, so a line of the wrong trigram position changes | 天雷無妄 (upper 乾, lower 震) with moving line 1 gives 天火同人 | 天地否, from flipping the bottom line | not executed; proved for the model as written | MeihuaBiangua.AsWrittenMovesWrongLine | MeihuaBiangua.Bian |
| src/services/meihua/calculators/HuguaCalculator.ts:22-41 | the slices 1..3 and 2..4 are taken of the top-first triples as if index 0 were the bottom line | 地雷復 (upper 坤, lower 震) gives 山水蒙 | 坤為地, from lines 2-4 and 3-5 counted from the bottom | not executed; proved for the model as written | MeihuaHugua.AsWrittenMisreadsLines | MeihuaHugua.Calculate |

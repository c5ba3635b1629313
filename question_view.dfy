/**
 * The question view of the physics quiz: a stateless component that shows one
 * question with two independent single-choice option groups (one per physical
 * quantity), reports every change as a complete two-part answer, and, when the
 * caller asks for it, marks the correct option and a wrongly selected one.
 */
module QuestionView {

  datatype Option<T> = None | Some(value: T)

  /** The two answer slots of a question, one per physical quantity. */
  datatype Slot = First | Second {
    function Other(): (o: Slot)
      ensures o != this
    {
      match this
      case First => Second
      case Second => First
    }
  }

  /** A two-part answer. The value 0 in a slot stands for "nothing chosen yet". */
  datatype Pair = Pair(first: int, second: int) {
    function Get(slot: Slot): int {
      match slot
      case First => first
      case Second => second
    }
  }

  /** One selectable option: its display text and the value it stands for. */
  datatype Choice = Choice(caption: string, value: int)

  /** A question as the static question list supplies it. */
  datatype Question = Question(
    id: string,
    number: int,
    text: string,
    imageUrl: Option<string>,
    options: seq<Choice>,
    physicalQuantities: (string, string),
    correctAnswer: Pair)

  /** No two options of the question stand for the same value. */
  predicate DistinctValues(q: Question) {
    forall i, j :: 0 <= i < j < |q.options| ==> q.options[i].value != q.options[j].value
  }

  /** The handler of the first option group: a new pair with the first slot replaced. */
  function HandleFirstChange(answer: Pair, value: int): (r: Pair)
    ensures r.Get(First) == value && r.Get(Second) == answer.Get(Second)
  {
    Pair(value, answer.second)
  }

  /** The handler of the second option group: a new pair with the second slot replaced. */
  function HandleSecondChange(answer: Pair, value: int): (r: Pair)
    ensures r.Get(First) == answer.Get(First) && r.Get(Second) == value
  {
    Pair(answer.first, value)
  }

  /**
   * The pair reported when an option of `slot`'s group is chosen: the first group
   * is wired to HandleFirstChange and the second to HandleSecondChange.
   */
  function ChangeSlot(answer: Pair, slot: Slot, value: int): (r: Pair)
    ensures r.Get(slot) == value
    ensures r.Get(slot.Other()) == answer.Get(slot.Other())
  {
    match slot
    case First => HandleFirstChange(answer, value)
    case Second => HandleSecondChange(answer, value)
  }

  /** Choosing the value a slot already holds reports the same pair back. */
  lemma ChangeSlotSameValue(answer: Pair, slot: Slot)
    ensures ChangeSlot(answer, slot, answer.Get(slot)) == answer
  {
  }

  /** A second change of the same slot overrides the first one completely. */
  lemma ChangeSlotTwice(answer: Pair, slot: Slot, v: int, w: int)
    ensures ChangeSlot(ChangeSlot(answer, slot, v), slot, w) == ChangeSlot(answer, slot, w)
  {
  }

  /** Changes to the two different slots are independent of the order they happen in. */
  lemma ChangeSlotsCommute(answer: Pair, v: int, w: int)
    ensures ChangeSlot(ChangeSlot(answer, First, v), Second, w)
         == ChangeSlot(ChangeSlot(answer, Second, w), First, v)
         == Pair(v, w)
  {
  }

  /** The markers computed for one rendered option. */
  datatype OptionMarks = OptionMarks(
    value: int,
    selected: bool,
    correct: bool,
    wrong: bool,
    disabled: bool)

  /**
   * The marking rule for one option. `correctValue` is None where the caller passes
   * no correct value; a value compared with a missing one is never equal to it.
   */
  function MarkOption(show: bool, selectedValue: int, correctValue: Option<int>, optionValue: int): (m: OptionMarks)
    ensures m.value == optionValue
    ensures !show ==> !m.correct && !m.wrong && !m.disabled
    ensures m.wrong ==> m.selected && correctValue != Some(optionValue)
    ensures !(m.correct && m.wrong)
  {
    var isSelected := selectedValue == optionValue;
    var isCorrect := show && correctValue == Some(optionValue);
    var isWrong := show && isSelected && correctValue != Some(selectedValue);
    OptionMarks(optionValue, isSelected, isCorrect, isWrong, show)
  }

  /** The markers of every option of the question, in the question's order. */
  function RenderOptions(q: Question, show: bool, selectedValue: int, correctValue: Option<int>): (r: seq<OptionMarks>)
    ensures |r| == |q.options|
    ensures forall i :: 0 <= i < |r| ==> r[i] == MarkOption(show, selectedValue, correctValue, q.options[i].value)
  {
    seq(|q.options|, i requires 0 <= i < |q.options| => MarkOption(show, selectedValue, correctValue, q.options[i].value))
  }

  /** The correct value handed to a slot's option group: only when correctness is revealed. */
  function CorrectValueFor(q: Question, show: bool, slot: Slot): (c: Option<int>)
    ensures c.Some? <==> show
    ensures c.Some? ==> c.value == q.correctAnswer.Get(slot)
  {
    if show then Some(q.correctAnswer.Get(slot)) else None
  }

  /**
   * The option group of one slot as rendered, for the current answer and the
   * reveal flag: which options are selected, marked correct, marked wrong and
   * whether inputs are disabled.
   */
  function SlotOptions(q: Question, answer: Pair, show: bool, slot: Slot): (r: seq<OptionMarks>)
    ensures |r| == |q.options|
    ensures forall i :: 0 <= i < |r| ==> r[i].value == q.options[i].value
    ensures forall i :: 0 <= i < |r| ==> (r[i].selected <==> q.options[i].value == answer.Get(slot))
    ensures forall i :: 0 <= i < |r| ==> r[i].disabled == show
    ensures forall i :: 0 <= i < |r| ==>
      (r[i].correct <==> show && q.options[i].value == q.correctAnswer.Get(slot))
    ensures forall i :: 0 <= i < |r| ==>
      (r[i].wrong <==> show && r[i].selected && answer.Get(slot) != q.correctAnswer.Get(slot))
    ensures forall i :: 0 <= i < |r| ==> !(r[i].correct && r[i].wrong)
  {
    RenderOptions(q, show, answer.Get(slot), CorrectValueFor(q, show, slot))
  }

  /** Without the reveal flag nothing is marked correct or wrong and every input is enabled. */
  lemma NoMarksWhenHidden(q: Question, answer: Pair, slot: Slot, i: int)
    requires 0 <= i < |q.options|
    ensures var r := SlotOptions(q, answer, false, slot);
      !r[i].correct && !r[i].wrong && !r[i].disabled
  {
  }

  /** With distinct option values at most one option per slot is selected. */
  lemma AtMostOneSelected(q: Question, answer: Pair, show: bool, slot: Slot, i: int, j: int)
    requires DistinctValues(q)
    requires 0 <= i < |q.options| && 0 <= j < |q.options|
    requires SlotOptions(q, answer, show, slot)[i].selected
    requires SlotOptions(q, answer, show, slot)[j].selected
    ensures i == j
  {
  }

  /** With distinct option values at most one option per slot is marked correct. */
  lemma AtMostOneCorrect(q: Question, answer: Pair, show: bool, slot: Slot, i: int, j: int)
    requires DistinctValues(q)
    requires 0 <= i < |q.options| && 0 <= j < |q.options|
    requires SlotOptions(q, answer, show, slot)[i].correct
    requires SlotOptions(q, answer, show, slot)[j].correct
    ensures i == j
  {
  }

  /**
   * When correctness is revealed and the slot's answer is wrong, exactly the
   * selected option is marked wrong; a correct answer marks nothing wrong.
   */
  lemma WrongIsTheSelectedMismatch(q: Question, answer: Pair, slot: Slot, i: int)
    requires 0 <= i < |q.options|
    ensures var r := SlotOptions(q, answer, true, slot);
      r[i].wrong <==> q.options[i].value == answer.Get(slot) && answer.Get(slot) != q.correctAnswer.Get(slot)
  {
  }

  /**
   * When no value is chosen in a slot (0) and no option stands for 0, no option
   * of the group is selected.
   */
  lemma UnansweredSelectsNothing(q: Question, answer: Pair, show: bool, slot: Slot, i: int)
    requires answer.Get(slot) == 0
    requires forall k :: 0 <= k < |q.options| ==> q.options[k].value != 0
    requires 0 <= i < |q.options|
    ensures !SlotOptions(q, answer, show, slot)[i].selected
  {
  }

  /** Choosing option `i` of a slot's group reports the pair with that slot set to the option's value. */
  lemma ChoosingOptionReports(q: Question, answer: Pair, slot: Slot, i: int)
    requires 0 <= i < |q.options|
    ensures var r := ChangeSlot(answer, slot, q.options[i].value);
      r.Get(slot) == SlotOptions(q, answer, false, slot)[i].value && r.Get(slot.Other()) == answer.Get(slot.Other())
  {
  }
}

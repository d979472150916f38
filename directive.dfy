/** The tooltip directive's state on its host element and on the document
    (bind, update, show, remove and align in Tooltip.js). */
module Directive {
  import opened Modifiers
  import opened Placement

  /** The directive's value: a plain string, or an object whose `value`,
      `disabled` and `escape` properties may each be undefined. */
  datatype Value =
    | Text(text: string)
    | Config(value: Option<string>, disabled: Option<bool>, escape: Option<bool>)

  /** What Vue hands the directive hooks. */
  datatype Binding = Binding(modifiers: Option<Flags>, arg: Arg, value: Value)

  /** The `$_ptooltipValue`, `$_ptooltipDisabled` and `$_ptooltipEscape`
      properties of the host element. */
  datatype Settings = Settings(value: Option<string>, disabled: Option<bool>, escape: Option<bool>)

  /** JavaScript truthiness of a possibly undefined boolean; `x || false` is
      `Some(Truthy(x))`. */
  predicate Truthy(b: Option<bool>) {
    b.Some? && b.value
  }

  /** The settings bind stores: a string is shown as text and enabled; an
      object's `disabled` and `escape` default to false. */
  function BindSettings(v: Value): Settings {
    match v
    case Text(s) => Settings(Some(s), Some(false), Some(false))
    case Config(value, disabled, escape) => Settings(value, Some(Truthy(disabled)), Some(Truthy(escape)))
  }

  /** The settings update stores: as bind for a string; for an object,
      `disabled` is copied as it is and `escape` is always false. */
  function UpdateSettings(v: Value): Settings {
    match v
    case Text(s) => Settings(Some(s), Some(false), Some(false))
    case Config(value, disabled, _) => Settings(value, disabled, Some(false))
  }

  /** The tooltip containers attached to the document body, by element id. */
  class Document {
    var body: map<string, TipStyle>

    constructor ()
      ensures body == map[]
    {
      body := map[];
    }
  }

  /** The element the directive is bound to, with its `$_ptooltip*` properties. */
  class HostElement {
    var modifiers: Flags
    var value: Option<string>
    var disabled: Option<bool>
    var escape: Option<bool>
    var id: Option<string>

    /** An element no hook has touched yet: value, disabled, escape and id are
      undefined. The undefined `$_ptooltipModifiers` is represented by the
      empty flag set; nothing reads it before bind has set it. */
    constructor ()
      ensures modifiers == map[] && id == None
      ensures Current() == Settings(None, None, None)
    {
      modifiers := map[];
      value, disabled, escape := None, None, None;
      id := None;
    }

    function Current(): Settings
      reads this
    {
      Settings(value, disabled, escape)
    }

    /** The element's tooltip is attached to the document. */
    predicate Showing(doc: Document)
      reads this, doc
    {
      id.Some? && id.value in doc.body
    }
  }

  /** Tooltip.bind (without the event listeners it adds). */
  method Bind(el: HostElement, binding: Binding)
    modifies el
    ensures el.modifiers == GetModifiers(binding.modifiers, binding.arg)
    ensures el.Current() == BindSettings(binding.value)
    ensures el.id == old(el.id)
  {
    el.modifiers := GetModifiers(binding.modifiers, binding.arg);
    match binding.value
    case Text(s) =>
      el.value := Some(s);
      el.disabled := Some(false);
      el.escape := Some(false);
    case Config(value, disabled, escape) =>
      el.value := value;
      el.disabled := Some(Truthy(disabled));
      el.escape := Some(Truthy(escape));
  }

  /** Tooltip.update. */
  method Update(el: HostElement, binding: Binding)
    modifies el
    ensures el.modifiers == GetModifiers(binding.modifiers, binding.arg)
    ensures el.Current() == UpdateSettings(binding.value)
    ensures el.id == old(el.id)
  {
    el.modifiers := GetModifiers(binding.modifiers, binding.arg);
    match binding.value
    case Text(s) =>
      el.value := Some(s);
      el.disabled := Some(false);
      el.escape := Some(false);
    case Config(value, disabled, _) =>
      el.value := value;
      el.disabled := disabled;
      el.escape := Some(false);
  }

  /** bind and update store the same settings exactly for a string value and
      for an object whose `disabled` is defined and whose `escape` is not
      truthy: update forgets `escape` and does not default `disabled`. */
  lemma BindUpdateAgree(v: Value)
    ensures BindSettings(v) == UpdateSettings(v) <==>
      v.Text? || (v.disabled.Some? && !Truthy(v.escape))
  {
  }

  /** Whether show goes ahead is the same after bind and after update. */
  lemma BindUpdateSameGuard(v: Value)
    ensures Truthy(BindSettings(v).disabled) == Truthy(UpdateSettings(v).disabled)
  {
  }

  /** create: attaches a new, unplaced tooltip container under a fresh id.
      `uid` stands for what UniqueComponentId returns, which is never an id
      already in use. */
  method Create(el: HostElement, doc: Document, uid: string)
    requires uid + "_tooltip" !in doc.body
    modifies el, doc
    ensures el.id == Some(uid + "_tooltip")
    ensures doc.body == old(doc.body)[uid + "_tooltip" := TipStyle(None, None, "")]
    ensures el.modifiers == old(el.modifiers) && el.Current() == old(el.Current())
  {
    var id := uid + "_tooltip";
    el.id := Some(id);
    doc.body := doc.body[id := TipStyle(None, None, "")];
  }

  /** preAlign: parks the tooltip at (-999, -999) and gives it the class of
      `position`. */
  method PreAlign(el: HostElement, doc: Document, position: string)
    requires el.Showing(doc)
    modifies doc
    ensures doc.body == old(doc.body)[el.id.value := TipStyle(Some(-999.0), Some(-999.0), ClassName(position))]
  {
    var id := el.id.value;
    doc.body := doc.body[id := TipStyle(Some(-999.0), Some(-999.0), ClassName(position))];
  }

  method AlignRight(el: HostElement, doc: Document, layout: Layout)
    requires el.Showing(doc)
    modifies doc
    ensures doc.body == old(doc.body)[el.id.value := Placed(Right, layout)]
  {
    PreAlign(el, doc, "right");
    var id := el.id.value;
    var tip := MeasureTip(layout, doc.body[id].className);
    var offset := HostOffset(layout);
    var left := offset.left + layout.host.width;
    var top := offset.top + (layout.host.height - tip.height) / 2.0;
    doc.body := doc.body[id := doc.body[id].(left := Some(left), top := Some(top))];
  }

  method AlignLeft(el: HostElement, doc: Document, layout: Layout)
    requires el.Showing(doc)
    modifies doc
    ensures doc.body == old(doc.body)[el.id.value := Placed(Left, layout)]
  {
    PreAlign(el, doc, "left");
    var id := el.id.value;
    var tip := MeasureTip(layout, doc.body[id].className);
    var offset := HostOffset(layout);
    var left := offset.left - tip.width;
    var top := offset.top + (layout.host.height - tip.height) / 2.0;
    doc.body := doc.body[id := doc.body[id].(left := Some(left), top := Some(top))];
  }

  method AlignTop(el: HostElement, doc: Document, layout: Layout)
    requires el.Showing(doc)
    modifies doc
    ensures doc.body == old(doc.body)[el.id.value := Placed(Top, layout)]
  {
    PreAlign(el, doc, "top");
    var id := el.id.value;
    var tip := MeasureTip(layout, doc.body[id].className);
    var offset := HostOffset(layout);
    var left := offset.left + (layout.host.width - tip.width) / 2.0;
    var top := offset.top - tip.height;
    doc.body := doc.body[id := doc.body[id].(left := Some(left), top := Some(top))];
  }

  method AlignBottom(el: HostElement, doc: Document, layout: Layout)
    requires el.Showing(doc)
    modifies doc
    ensures doc.body == old(doc.body)[el.id.value := Placed(Bottom, layout)]
  {
    PreAlign(el, doc, "bottom");
    var id := el.id.value;
    var tip := MeasureTip(layout, doc.body[id].className);
    var offset := HostOffset(layout);
    var left := offset.left + (layout.host.width - tip.width) / 2.0;
    var top := offset.top + layout.host.height;
    doc.body := doc.body[id := doc.body[id].(left := Some(left), top := Some(top))];
  }

  /** isOutOfBounds(el): tests the element's tooltip as it stands. */
  predicate OutOfBounds(el: HostElement, doc: Document, layout: Layout)
    reads el, doc
    requires el.Showing(doc)
    requires doc.body[el.id.value].left.Some? && doc.body[el.id.value].top.Some?
    ensures OutOfBounds(el, doc, layout) <==>
      !Inside(ClientRect(doc.body[el.id.value], layout), layout.viewport)
  {
    IsOutOfBounds(doc.body[el.id.value], layout)
  }

  /** A second write to the same id leaves only the second. */
  lemma Overwrite(body: map<string, TipStyle>, id: string, first: TipStyle, second: TipStyle)
    ensures body[id := first][id := second] == body[id := second]
  {
  }

  /** align: tries the sides in the order the modifiers dictate and leaves the
      tooltip on the side `Chosen` names, with that side's class and
      position; nothing of an earlier attempt remains. */
  method Align(el: HostElement, doc: Document, layout: Layout)
    requires el.Showing(doc)
    modifies doc
    ensures doc.body == old(doc.body)[el.id.value := Placed(Chosen(el.modifiers, layout), layout)]
  {
    ghost var body := doc.body;
    ghost var id := el.id.value;
    // the side whose placement the tooltip carries at each point
    ghost var side: Side;
    var modifiers := el.modifiers;
    if Has(modifiers, "top") {
      AlignTop(el, doc, layout);
      side := Top;
      if OutOfBounds(el, doc, layout) {
        AlignBottom(el, doc, layout);
        Overwrite(body, id, Placed(side, layout), Placed(Bottom, layout));
        side := Bottom;
        if OutOfBounds(el, doc, layout) {
          AlignTop(el, doc, layout);
          Overwrite(body, id, Placed(side, layout), Placed(Top, layout));
          side := Top;
        }
      }
      ChosenVertical(modifiers, layout);
    }
    else if Has(modifiers, "left") {
      AlignLeft(el, doc, layout);
      side := Left;
      if OutOfBounds(el, doc, layout) {
        AlignRight(el, doc, layout);
        Overwrite(body, id, Placed(side, layout), Placed(Right, layout));
        side := Right;
        if OutOfBounds(el, doc, layout) {
          AlignTop(el, doc, layout);
          Overwrite(body, id, Placed(side, layout), Placed(Top, layout));
          side := Top;
          if OutOfBounds(el, doc, layout) {
            AlignBottom(el, doc, layout);
            Overwrite(body, id, Placed(side, layout), Placed(Bottom, layout));
            side := Bottom;
            if OutOfBounds(el, doc, layout) {
              AlignLeft(el, doc, layout);
              Overwrite(body, id, Placed(side, layout), Placed(Left, layout));
              side := Left;
            }
          }
        }
      }
      ChosenSideways(modifiers, layout);
    }
    else if Has(modifiers, "bottom") {
      AlignBottom(el, doc, layout);
      side := Bottom;
      if OutOfBounds(el, doc, layout) {
        AlignTop(el, doc, layout);
        Overwrite(body, id, Placed(side, layout), Placed(Top, layout));
        side := Top;
        if OutOfBounds(el, doc, layout) {
          AlignBottom(el, doc, layout);
          Overwrite(body, id, Placed(side, layout), Placed(Bottom, layout));
          side := Bottom;
        }
      }
      ChosenVertical(modifiers, layout);
    }
    else {
      AlignRight(el, doc, layout);
      side := Right;
      if OutOfBounds(el, doc, layout) {
        AlignLeft(el, doc, layout);
        Overwrite(body, id, Placed(side, layout), Placed(Left, layout));
        side := Left;
        if OutOfBounds(el, doc, layout) {
          AlignTop(el, doc, layout);
          Overwrite(body, id, Placed(side, layout), Placed(Top, layout));
          side := Top;
          if OutOfBounds(el, doc, layout) {
            AlignBottom(el, doc, layout);
            Overwrite(body, id, Placed(side, layout), Placed(Bottom, layout));
            side := Bottom;
            if OutOfBounds(el, doc, layout) {
              AlignRight(el, doc, layout);
              Overwrite(body, id, Placed(side, layout), Placed(Right, layout));
              side := Right;
            }
          }
        }
      }
      ChosenSideways(modifiers, layout);
    }
    assert side == Chosen(modifiers, layout);
  }

  /** show: a disabled tooltip changes nothing; otherwise a tooltip is created
      under the fresh id `uid + "_tooltip"` and aligned. `uid` stands for what
      UniqueComponentId returns, which is never an id already in use. */
  method Show(el: HostElement, doc: Document, uid: string, layout: Layout)
    requires uid + "_tooltip" !in doc.body
    modifies el, doc
    ensures Truthy(old(el.disabled)) ==> el.id == old(el.id) && doc.body == old(doc.body)
    ensures !Truthy(old(el.disabled)) ==>
      el.id == Some(uid + "_tooltip") &&
      doc.body == old(doc.body)[uid + "_tooltip" := Placed(Chosen(el.modifiers, layout), layout)]
    ensures el.modifiers == old(el.modifiers) && el.Current() == old(el.Current())
  {
    if Truthy(el.disabled) {
      return;
    }
    Create(el, doc, uid);
    Align(el, doc, layout);
    Overwrite(old(doc.body), uid + "_tooltip", TipStyle(None, None, ""),
              Placed(Chosen(el.modifiers, layout), layout));
  }

  /** remove: detaches the element's tooltip, if it is attached, and clears
      the element's id. A null element is ignored. */
  method Remove(el: HostElement?, doc: Document)
    modifies el, doc
    ensures el == null ==> doc.body == old(doc.body)
    ensures el != null ==> el.id == None
    ensures el != null ==>
      doc.body == if old(el.id).Some? then old(doc.body) - {old(el.id).value} else old(doc.body)
    ensures el != null ==> el.modifiers == old(el.modifiers) && el.Current() == old(el.Current())
  {
    if el != null {
      if el.id.Some? && el.id.value in doc.body {
        doc.body := doc.body - {el.id.value};
      }
      el.id := None;
    }
  }

  /** Hovering and leaving (onMouseEnter then onMouseLeave) on an enabled
      tooltip leaves the document as it was and the element without an id. */
  method HoverAndLeave(el: HostElement, doc: Document, uid: string, layout: Layout)
    requires uid + "_tooltip" !in doc.body
    requires !Truthy(el.disabled)
    modifies el, doc
    ensures doc.body == old(doc.body)
    ensures el.id == None
    ensures el.modifiers == old(el.modifiers) && el.Current() == old(el.Current())
  {
    Show(el, doc, uid, layout);
    assert el.Showing(doc);
    Remove(el, doc);
  }
}

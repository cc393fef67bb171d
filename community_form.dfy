/** The state of the community form component and its event handlers. Each
    `useState` variable is a field; each handler is a method that changes
    the fields its setters change. The membership lists and the initial
    record come from outside the component and are fixed when it is built;
    the field descriptors are recomputed on every render and so are passed
    to the members that use them. */
module Community {
  import opened FormValues
  import opened FieldRouter
  import opened Fields
  import opened Captcha

  /** The submit button is enabled exactly when the captcha is accepted and
      every validator accepts the current record. */
  predicate FormValid(captcha: CaptchaState, fields: seq<Field>, obj: map<string, Value>)
  {
    Accepted(captcha) && FieldsValid(fields, obj)
  }

  /** A call `renderField(fields[index], clear)`: which descriptor is drawn
      and with which clear token. */
  datatype Rendered = Rendered(index: nat, clear: nat)

  /** A submission in flight: the record handed to `onSubmit` and the clear
      token the success continuation captured when the button was pressed. */
  datatype PendingSubmit = PendingSubmit(payload: map<string, Value>, clearSeen: nat)

  class CommunityForm {
    const lists: MembershipLists
    var formValues: map<string, Value>
    var captchaText: Option<string>
    var isCaptchaExpired: bool
    var clear: nat

    /** The form starts from a copy of the initial record, an empty
        captcha response that has not expired, and a clear token of 0. */
    constructor (lists: MembershipLists, initialState: map<string, Value>)
      ensures this.lists == lists && formValues == initialState
      ensures CaptchaStatus() == INITIAL && clear == 0
    {
      this.lists := lists;
      formValues := initialState;
      captchaText := Some("");
      isCaptchaExpired := false;
      clear := 0;
    }

    function CaptchaStatus(): CaptchaState
      reads this
    {
      CaptchaState(captchaText, isCaptchaExpired)
    }

    /** `handleChange`: the widget reports a response, or `null` on expiry. */
    method HandleChange(value: Option<string>)
      modifies this
      ensures CaptchaStatus() == OnChange(old(CaptchaStatus()), value)
      ensures captchaText == value
      ensures isCaptchaExpired <==> old(isCaptchaExpired) || value.None?
      ensures formValues == old(formValues) && clear == old(clear)
    {
      captchaText := value;
      if value.None? {
        isCaptchaExpired := true;
      }
    }

    /** `handleFieldChange(field)(value)`. */
    method HandleFieldChange(field: string, value: Value)
      modifies this
      ensures formValues == FieldChange(lists, old(formValues), field, value)
      ensures CaptchaStatus() == old(CaptchaStatus()) && clear == old(clear)
    {
      formValues := FieldChange(lists, formValues, field, value);
    }

    /** `renderFormField(property)`: the first descriptor for `property` is
        drawn with the current clear token; with none, nothing is drawn. */
    function RenderFormField(fields: seq<Field>, property: string): (r: Option<Rendered>)
      reads this
      ensures r.None? <==> forall i :: 0 <= i < |fields| ==> fields[i].property != property
      ensures r.Some? ==> r.value.index < |fields| && fields[r.value.index].property == property
      ensures r.Some? ==> forall j :: 0 <= j < r.value.index ==> fields[j].property != property
      ensures r.Some? ==> r.value.clear == clear
    {
      match FindField(fields, property)
      case None => None
      case Some(i) => Some(Rendered(i, clear))
    }

    /** `hadleSubmit`: `onSubmit` receives the current record; the success
        continuation keeps the clear token of this moment. */
    method HandleSubmit() returns (pending: PendingSubmit)
      ensures pending.payload == formValues && pending.clearSeen == clear
    {
      pending := PendingSubmit(formValues, clear);
    }

    /** The continuation run when `onSubmit`'s promise resolves: the record
        becomes `{}` and the clear token becomes one more than the token
        captured at submission, which is one more than the current token
        unless another submission completed in between. */
    method SubmitSucceeded(pending: PendingSubmit)
      modifies this
      ensures formValues == map[] && clear == pending.clearSeen + 1
      ensures old(clear) == pending.clearSeen ==> clear == old(clear) + 1
      ensures CaptchaStatus() == old(CaptchaStatus())
    {
      formValues := map[];
      clear := pending.clearSeen + 1;
    }

    /** `isFormValid`: false unless the captcha is accepted; otherwise the
        validators of `fields` are applied in order to the current values. */
    method IsFormValid(fields: seq<Field>) returns (valid: bool)
      ensures valid == FormValid(CaptchaStatus(), fields, formValues)
      ensures valid <==> Accepted(CaptchaStatus()) && forall i :: 0 <= i < |fields| ==> Accepts(fields[i], formValues)
      ensures !Accepted(CaptchaStatus()) ==> !valid
    {
      valid := true;
      if captchaText.Some? && captchaText.value != "" && !isCaptchaExpired {
        for i := 0 to |fields|
          invariant valid == FieldsValid(fields[..i], formValues)
        {
          var f := fields[i];
          if f.onValidate.Some? {
            valid := valid && f.onValidate.value(Lookup(formValues, f.property));
          }
          assert fields[..i + 1][..i] == fields[..i];
        }
        assert fields[..|fields|] == fields;
      } else {
        valid := false;
      }
      FieldsValidMeans(fields, formValues);
    }
  }

  /** Two submissions started before either completes both captured the
      same clear token, so after both succeed the token has advanced by one,
      not two, and the record is empty. */
  method OverlappingSubmits(form: CommunityForm)
    modifies form
    ensures form.formValues == map[] && form.clear == old(form.clear) + 1
  {
    var first := form.HandleSubmit();
    var second := form.HandleSubmit();
    form.SubmitSucceeded(first);
    form.SubmitSucceeded(second);
  }

  /** The clear token counts successful submissions when each completes
      before the next begins. */
  method SequentialSubmits(form: CommunityForm)
    modifies form
    ensures form.formValues == map[] && form.clear == old(form.clear) + 2
  {
    var first := form.HandleSubmit();
    form.SubmitSucceeded(first);
    var second := form.HandleSubmit();
    form.SubmitSucceeded(second);
  }
}

/**
 * The registration page's submission handler: it packs the validated values
 * and the chosen picture into a FormData of six entries, hands it to the
 * register action, and on an explicit `success === true` clears the form
 * and the picture and goes to `/login`; on anything else it goes back to
 * `/register`. It also decides what the picture area shows.
 */
module RegisterForm {
  import opened Wrappers
  import opened RegisterRules

  /** A JavaScript value, as far as the handler inspects the action's result. */
  datatype JsValue =
    | Undefined
    | Null
    | Bool(b: bool)
    | Num(n: int)
    | Str(s: string)
    | Object(props: map<string, JsValue>)

  /** JavaScript truthiness (NaN is not modelled). */
  predicate Truthy(v: JsValue)
  {
    match v
    case Undefined => false
    case Null => false
    case Bool(b) => b
    case Num(n) => n != 0
    case Str(s) => s != ""
    case Object(_) => true
  }

  /** Optional chaining `v?.key` for the property names the handler reads. */
  function Get(v: JsValue, key: string): JsValue
  {
    match v
    case Object(props) => if key in props then props[key] else Undefined
    case _ => Undefined
  }

  /** `response && response?.payload?.success === true`. */
  predicate IsSuccess(response: JsValue)
  {
    Truthy(response) && Get(Get(response, "payload"), "success") == Bool(true)
  }

  /**
   * Success needs an object response whose `payload` is an object whose
   * `success` is the boolean `true`; nothing else counts.
   */
  lemma SuccessNeedsTrueFlag(response: JsValue)
    ensures IsSuccess(response) <==>
      && response.Object? && "payload" in response.props
      && response.props["payload"].Object? && "success" in response.props["payload"].props
      && response.props["payload"].props["success"] == Bool(true)
  {
  }

  /** Truthy look-alikes of `true` are not success: the comparison is strict. */
  lemma SuccessIsStrict(flag: JsValue)
    requires flag in {Str("true"), Num(1), Object(map[]), Bool(false), Undefined, Null}
    ensures !IsSuccess(Object(map["payload" := Object(map["success" := flag])]))
  {
  }

  /** A browser `File` picked in the file input. */
  datatype FileRef = FileRef(name: string)

  /** The `image` state: `null` at first, the picked file, `undefined` when none was picked, `''` after success. */
  datatype ImageState = ImageNull | ImageUndefined | ImageEmpty | ImageFile(file: FileRef)

  /** A FormData entry value: a string or a file. */
  datatype EntryValue = Text(text: string) | Blob(file: FileRef)

  datatype Entry = Entry(name: string, value: EntryValue)

  /** FormData.append keeps a file and turns any other value into its string form. */
  function AppendValue(image: ImageState): EntryValue
  {
    match image
    case ImageNull => Text("null")
    case ImageUndefined => Text("undefined")
    case ImageEmpty => Text("")
    case ImageFile(f) => Blob(f)
  }

  /** The FormData the handler builds. */
  function RegistrationFormData(data: FormValues, image: ImageState): seq<Entry>
  {
    [ Entry("name", Text(data.name)),
      Entry("email", Text(data.email)),
      Entry("phone", Text(data.phone)),
      Entry("password", Text(data.password)),
      Entry("confirmPassword", Text(data.confirmPassword)),
      Entry("profile_pic", AppendValue(image)) ]
  }

  function EntryNames(fd: seq<Entry>): seq<string>
  {
    if fd == [] then [] else [fd[0].name] + EntryNames(fd[1..])
  }

  /** FormData.get: the value of the first entry with that name. */
  function FormDataGet(fd: seq<Entry>, name: string): Option<EntryValue>
  {
    if fd == [] then None
    else if fd[0].name == name then Some(fd[0].value)
    else FormDataGet(fd[1..], name)
  }

  /** The names of the entries, position by position. */
  lemma {:induction false} EntryNamesAt(fd: seq<Entry>)
    ensures |EntryNames(fd)| == |fd|
    ensures forall i :: 0 <= i < |fd| ==> EntryNames(fd)[i] == fd[i].name
  {
    if fd != [] {
      EntryNamesAt(fd[1..]);
    }
  }

  /** FormData.get finds the entry at `k` when no earlier entry has its name. */
  lemma {:induction false} FormDataGetFirst(fd: seq<Entry>, k: nat)
    requires k < |fd|
    requires forall j :: 0 <= j < k ==> fd[j].name != fd[k].name
    ensures FormDataGet(fd, fd[k].name) == Some(fd[k].value)
  {
    if k > 0 {
      FormDataGetFirst(fd[1..], k - 1);
    }
  }

  /**
   * Six entries, in the order name, email, phone, password,
   * confirmPassword, profile_pic; reading each back by name gives the
   * submitted value, and profile_pic gives the current picture state.
   */
  lemma FormDataReadsBack(data: FormValues, image: ImageState)
    ensures var fd := RegistrationFormData(data, image);
      && EntryNames(fd) == ["name", "email", "phone", "password", "confirmPassword", "profile_pic"]
      && FormDataGet(fd, "name") == Some(Text(data.name))
      && FormDataGet(fd, "email") == Some(Text(data.email))
      && FormDataGet(fd, "phone") == Some(Text(data.phone))
      && FormDataGet(fd, "password") == Some(Text(data.password))
      && FormDataGet(fd, "confirmPassword") == Some(Text(data.confirmPassword))
      && FormDataGet(fd, "profile_pic") == Some(AppendValue(image))
  {
    var fd := RegistrationFormData(data, image);
    EntryNamesAt(fd);
    assert forall i, j :: 0 <= i < j < 6 ==> fd[i].name != fd[j].name by {
      assert forall i, j :: 0 <= i < j < 6 ==> |fd[i].name| != |fd[j].name| || fd[i].name[0] != fd[j].name[0];
    }
    FormDataGetFirst(fd, 0);
    FormDataGetFirst(fd, 1);
    FormDataGetFirst(fd, 2);
    FormDataGetFirst(fd, 3);
    FormDataGetFirst(fd, 4);
    FormDataGetFirst(fd, 5);
  }

  /** Without a picked file, profile_pic is sent as a string, never as a file. */
  lemma NoFileSendsText(data: FormValues, image: ImageState)
    requires !image.ImageFile?
    ensures FormDataGet(RegistrationFormData(data, image), "profile_pic") ==
      Some(Text(if image == ImageNull then "null" else if image == ImageUndefined then "undefined" else ""))
  {
    FormDataReadsBack(data, image);
  }

  /** `image !== "" && image !== undefined && image !== null`: the preview is drawn. */
  predicate ShowsPreview(image: ImageState)
  {
    image != ImageEmpty && image != ImageUndefined && image != ImageNull
  }

  /** The placeholder text is drawn in the other branch, and only for `image === ""`. */
  predicate ShowsPlaceholder(image: ImageState)
  {
    !ShowsPreview(image) && image == ImageEmpty
  }

  /**
   * The preview is drawn exactly for a picked file and the placeholder
   * exactly after a successful submission cleared the picture; never both,
   * and neither before any picture was picked.
   */
  lemma PictureAreaCases(image: ImageState)
    ensures ShowsPreview(image) <==> image.ImageFile?
    ensures ShowsPlaceholder(image) <==> image == ImageEmpty
    ensures !(ShowsPreview(image) && ShowsPlaceholder(image))
    ensures image == ImageNull ==> !ShowsPreview(image) && !ShowsPlaceholder(image)
  {
  }

  const LoginPath: string := "/login"

  const RegisterPath: string := "/register"

  /** What `reset()` leaves in the text inputs. */
  const EmptyValues: FormValues := FormValues("", "", "", "", "")

  function WithValue(v: FormValues, f: Field, text: string): FormValues
  {
    match f
    case Name => v.(name := text)
    case Email => v.(email := text)
    case Phone => v.(phone := text)
    case Password => v.(password := text)
    case ConfirmPassword => v.(confirmPassword := text)
  }

  /** Typing into one input changes that field and no other. */
  lemma WithValueChangesOneField(v: FormValues, f: Field, text: string, g: Field)
    ensures ValueOf(WithValue(v, f, text), g) == if g == f then text else ValueOf(v, g)
  {
  }

  /** The registration page's state. */
  class RegisterPage {
    /** The values held by the form. */
    var values: FormValues
    /** The `image` state. */
    var image: ImageState
    /** Every `router.push` target, oldest first. */
    var navigations: seq<string>
    /** Every FormData handed to the register action, oldest first. */
    var sent: seq<seq<Entry>>

    /** A freshly mounted page: empty inputs, `image` null, nothing sent, no navigation. */
    constructor ()
      ensures values == EmptyValues && image == ImageNull
      ensures navigations == [] && sent == []
    {
      values := EmptyValues;
      image := ImageNull;
      navigations := [];
      sent := [];
    }

    /** Typing into one of the registered inputs. */
    method ChangeField(f: Field, text: string)
      modifies this
      ensures values == WithValue(old(values), f, text)
      ensures image == old(image) && navigations == old(navigations) && sent == old(sent)
    {
      values := WithValue(values, f, text);
    }

    /** The file input's change handler: `setImage(e.target.files[0])`. */
    method ChooseFile(picked: Option<FileRef>)
      modifies this
      ensures image == (if picked.Some? then ImageFile(picked.value) else ImageUndefined)
      ensures values == old(values) && navigations == old(navigations) && sent == old(sent)
    {
      image := if picked.Some? then ImageFile(picked.value) else ImageUndefined;
    }

    /**
     * `reg(data)`, with the register action's result given as `response`.
     * The register action is taken to resolve (a rejected dispatch, which
     * makes `reg` throw before any navigation, is outside the model).
     * Exactly one FormData is sent and exactly one navigation happens. The
     * handler's return value `response.data` is `None` where reading it
     * throws, that is when the response is null or undefined.
     */
    method Reg(data: FormValues, response: JsValue) returns (result: Option<JsValue>)
      modifies this
      ensures sent == old(sent) + [RegistrationFormData(data, old(image))]
      ensures navigations == old(navigations) + [if IsSuccess(response) then LoginPath else RegisterPath]
      ensures IsSuccess(response) ==> values == EmptyValues && image == ImageEmpty && ShowsPlaceholder(image)
      ensures !IsSuccess(response) ==> values == old(values) && image == old(image)
      ensures result.None? <==> response == Undefined || response == Null
      ensures result.Some? ==> result.value == Get(response, "data")
    {
      var formdata: seq<Entry> := [];
      formdata := formdata + [Entry("name", Text(data.name))];
      formdata := formdata + [Entry("email", Text(data.email))];
      formdata := formdata + [Entry("phone", Text(data.phone))];
      formdata := formdata + [Entry("password", Text(data.password))];
      formdata := formdata + [Entry("confirmPassword", Text(data.confirmPassword))];
      formdata := formdata + [Entry("profile_pic", AppendValue(image))];
      assert formdata == RegistrationFormData(data, image);
      sent := sent + [formdata];

      if IsSuccess(response) {
        values := EmptyValues;
        image := ImageEmpty;
        navigations := navigations + [LoginPath];
      } else {
        navigations := navigations + [RegisterPath];
      }

      if response == Undefined || response == Null {
        result := None;
      } else {
        result := Some(Get(response, "data"));
      }
    }
  }
}

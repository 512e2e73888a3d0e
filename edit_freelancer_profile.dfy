/** The freelancer's profile editor: the checks on uploaded avatars and CVs,
    the choice between an uploaded avatar and a generated default one, and
    the multipart form it submits.  Generated avatar images and the preview
    URLs of the browser are reduced to which image is shown. */
module EditFreelancerProfile {
  import opened Wrappers
  import opened Text
  import opened Store
  import opened Profiles

  const MaxAvatarBytes: int := 2 * 1024 * 1024
  const MaxCvBytes: int := 5 * 1024 * 1024
  const UploadsPrefix: string := "uploads/"
  const DefaultPrefix: string := "default_"
  const FallbackStyle: string := "avataaars"
  const AvatarStyles: seq<string> := ["avataaars", "bottts", "funEmoji", "lorelei", "micah", "personas"]

  /** A file chosen in the browser. */
  datatype FileInfo = FileInfo(name: string, mimeType: string, size: int)

  /** An avatar upload is kept iff it is an image of at most 2 MiB. */
  predicate AvatarFileOk(f: FileInfo) {
    StartsWith(f.mimeType, "image/") && f.size <= MaxAvatarBytes
  }

  /** A CV upload is kept iff it is a PDF of at most 5 MiB. */
  predicate CvFileOk(f: FileInfo) {
    f.mimeType == "application/pdf" && f.size <= MaxCvBytes
  }

  /** The avatar image shown. */
  datatype Preview =
    | NoPreview
    | ApiImage(url: string)     // "/api/<stored path>"
    | Generated(style: string)  // a generated default avatar of that style
    | Local(file: FileInfo)     // the chosen file, read as a data URL

  /** Where the stored avatar comes from. */
  datatype AvatarSource = UploadedAvatar(path: string) | DefaultAvatar(style: string) | LegacyOrNone

  /** Classifies a stored avatar: a path under "uploads/", "default_<style>",
      or anything else (including none). */
  function AvatarSourceOf(avatar: Option<string>): (r: AvatarSource)
    ensures r.UploadedAvatar? <==> avatar.Some? && StartsWith(avatar.value, UploadsPrefix)
    ensures r.UploadedAvatar? ==> r.path == avatar.value
    ensures r.DefaultAvatar? <==>
      avatar.Some? && !StartsWith(avatar.value, UploadsPrefix) && StartsWith(avatar.value, DefaultPrefix)
    ensures r.DefaultAvatar? ==> avatar.value == DefaultPrefix + r.style
  {
    match avatar
    case None => LegacyOrNone
    case Some(a) =>
      if StartsWith(a, UploadsPrefix) then UploadedAvatar(a)
      else if StartsWith(a, DefaultPrefix) then
        assert a == DefaultPrefix + a[|DefaultPrefix|..];
        DefaultAvatar(a[|DefaultPrefix|..])
      else LegacyOrNone
  }

  /** The editor's state: the form fields and the files chosen. */
  datatype EditorState = EditorState(
    profesion: string, experiencia: string, idCiud: string, avatarDefault: string,
    currentFile: Option<FileInfo>, currentCvFile: Option<FileInfo>,
    preview: Preview, selectedStyle: string)

  const Initial: EditorState := EditorState("", "", "", "", None, None, NoPreview, FallbackStyle)

  /** `generateDefaultAvatar(style)`: for a known style, show it, select it
      as `avatar_default` and drop the chosen file; otherwise nothing. */
  function WithDefaultAvatar(s: EditorState, style: string): (r: EditorState)
    ensures style !in AvatarStyles ==> r == s
    ensures style in AvatarStyles ==>
      r == s.(preview := Generated(style), avatarDefault := DefaultPrefix + style, currentFile := None)
  {
    if style in AvatarStyles then
      s.(preview := Generated(style), avatarDefault := DefaultPrefix + style, currentFile := None)
    else s
  }

  /** The profile data the editor is opened with. */
  datatype FreelancerData = FreelancerData(
    profesion: Option<string>, experiencia: Option<string>, idCiud: Option<string>, avatar: Option<string>)

  /** The loading effect: copy the fields, then show the stored avatar, the
      stored default style, or a generated "avataaars". */
  function Loaded(s: EditorState, d: FreelancerData): (r: EditorState)
    ensures r.profesion == d.profesion.GetOr("") && r.experiencia == d.experiencia.GetOr("")
    ensures r.idCiud == d.idCiud.GetOr("") && r.currentCvFile == s.currentCvFile
    ensures AvatarSourceOf(d.avatar).UploadedAvatar? ==>
      r.preview == ApiImage("/api/" + d.avatar.value) && r.avatarDefault == d.avatar.value &&
      r.currentFile == s.currentFile
    ensures AvatarSourceOf(d.avatar).DefaultAvatar? ==>
      r.selectedStyle == AvatarSourceOf(d.avatar).style && r.avatarDefault == d.avatar.value
  {
    var s1 := s.(profesion := d.profesion.GetOr(""), experiencia := d.experiencia.GetOr(""),
                 idCiud := d.idCiud.GetOr(""), avatarDefault := d.avatar.GetOr(""));
    match AvatarSourceOf(d.avatar)
    case UploadedAvatar(path) => s1.(preview := ApiImage("/api/" + path))
    case DefaultAvatar(style) => WithDefaultAvatar(s1.(selectedStyle := style), style)
    case LegacyOrNone => WithDefaultAvatar(s1, FallbackStyle)
  }

  const NotAnImage: string := "Por favor seleccione un archivo de imagen"
  const ImageTooLarge: string := "La imagen no debe superar los 2MB"
  const NotAPdf: string := "Por favor seleccione un archivo PDF"
  const PdfTooLarge: string := "El archivo no debe superar los 5MB"

  /** `handleAvatarUpload`: the type check, then the size check; an accepted
      file replaces any default avatar.  Returns the state and the alert. */
  function WithAvatarUpload(s: EditorState, file: Option<FileInfo>): (r: (EditorState, Option<string>))
    ensures r.1.None? <==> file.None? || AvatarFileOk(file.value)
    ensures file.Some? && AvatarFileOk(file.value) ==>
      r.0 == s.(preview := Local(file.value), currentFile := file, avatarDefault := "")
    ensures !(file.Some? && AvatarFileOk(file.value)) ==> r.0 == s
    ensures file.Some? && !StartsWith(file.value.mimeType, "image/") ==> r.1 == Some(NotAnImage)
  {
    match file
    case None => (s, None)
    case Some(f) =>
      if !StartsWith(f.mimeType, "image/") then (s, Some(NotAnImage))
      else if f.size > MaxAvatarBytes then (s, Some(ImageTooLarge))
      else (s.(preview := Local(f), currentFile := file, avatarDefault := ""), None)
  }

  /** `handleCVUpload`: the type check, then the size check; a rejected file
      also clears the file input.  Returns the state, the alert and whether
      the input was cleared. */
  function WithCvUpload(s: EditorState, file: Option<FileInfo>): (r: (EditorState, Option<string>, bool))
    ensures r.2 <==> file.Some? && !CvFileOk(file.value)
    ensures r.1.Some? <==> r.2
    ensures r.0 == if file.Some? && CvFileOk(file.value) then s.(currentCvFile := file) else s
  {
    match file
    case None => (s, None, false)
    case Some(f) =>
      if f.mimeType != "application/pdf" then (s, Some(NotAPdf), true)
      else if f.size > MaxCvBytes then (s, Some(PdfTooLarge), true)
      else (s.(currentCvFile := file), None, false)
  }

  /** One entry of the multipart form. */
  datatype FormField = TextField(name: string, value: string) | FileField(name: string, file: FileInfo)

  /** Whether the form carries an entry under `name`. */
  predicate Sends(fs: seq<FormField>, name: string) {
    exists i :: 0 <= i < |fs| && fs[i].name == name
  }

  lemma SendsAppend(a: seq<FormField>, b: seq<FormField>, name: string)
    ensures Sends(a + b, name) <==> Sends(a, name) || Sends(b, name)
  {
    if Sends(a + b, name) {
      var i :| 0 <= i < |a + b| && (a + b)[i].name == name;
      if i >= |a| {
        assert b[i - |a|].name == name;
      }
    }
    if Sends(a, name) {
      var i :| 0 <= i < |a| && a[i].name == name;
      assert (a + b)[i].name == name;
    }
    if Sends(b, name) {
      var i :| 0 <= i < |b| && b[i].name == name;
      assert (a + b)[|a| + i].name == name;
    }
  }

  /** The form `handleSubmit` sends, in order. */
  function Submitted(s: EditorState): (fs: seq<FormField>)
    ensures |fs| >= 3 && fs[0] == TextField("profesion", s.profesion)
    ensures fs[1] == TextField("experiencia", s.experiencia) && fs[2] == TextField("id_ciud", s.idCiud)
    ensures Sends(fs, "avatar") <==> s.currentFile.Some?
    ensures Sends(fs, "avatar_default") <==> s.currentFile.None? && s.avatarDefault != ""
    ensures Sends(fs, "hoja_vida") <==> s.currentCvFile.Some?
  {
    var base := [TextField("profesion", s.profesion), TextField("experiencia", s.experiencia), TextField("id_ciud", s.idCiud)];
    var avatar :=
      if s.currentFile.Some? then [FileField("avatar", s.currentFile.value)]
      else if s.avatarDefault != "" then [TextField("avatar_default", s.avatarDefault)]
      else [];
    var cv := if s.currentCvFile.Some? then [FileField("hoja_vida", s.currentCvFile.value)] else [];
    assert !Sends(base, "avatar") && !Sends(base, "avatar_default") && !Sends(base, "hoja_vida") by {
      assert "profesion"[0] != "hoja_vida"[0];
    }
    assert Sends(avatar, "avatar") <==> s.currentFile.Some? by {
      if s.currentFile.Some? { assert avatar[0].name == "avatar"; }
    }
    assert Sends(avatar, "avatar_default") <==> s.currentFile.None? && s.avatarDefault != "" by {
      if s.currentFile.None? && s.avatarDefault != "" { assert avatar[0].name == "avatar_default"; }
    }
    assert Sends(cv, "hoja_vida") <==> s.currentCvFile.Some? by {
      if s.currentCvFile.Some? { assert cv[0].name == "hoja_vida"; }
    }
    SendsAppend(base, avatar, "avatar");
    SendsAppend(base, avatar, "avatar_default");
    SendsAppend(base, avatar, "hoja_vida");
    SendsAppend(base + avatar, cv, "avatar");
    SendsAppend(base + avatar, cv, "avatar_default");
    SendsAppend(base + avatar, cv, "hoja_vida");
    base + avatar + cv
  }

  /** An uploaded avatar and a default avatar are never sent together. */
  lemma NeverBothAvatars(s: EditorState)
    ensures !(Sends(Submitted(s), "avatar") && Sends(Submitted(s), "avatar_default"))
  {
  }

  /** Choosing an accepted upload after a default style sends the file, and
      choosing a known style after an upload sends the style. */
  lemma LastChoiceWins(s: EditorState, f: FileInfo, style: string)
    requires AvatarFileOk(f) && style in AvatarStyles
    ensures var s1 := WithAvatarUpload(WithDefaultAvatar(s, style), Some(f)).0;
            s1.currentFile == Some(f) && s1.avatarDefault == ""
    ensures var s2 := WithDefaultAvatar(WithAvatarUpload(s, Some(f)).0, style);
            s2.currentFile.None? && s2.avatarDefault == DefaultPrefix + style
  {
  }

  class ProfileEditor {
    var profesion: string
    var experiencia: string
    var idCiud: string
    var avatarDefault: string
    var currentFile: Option<FileInfo>
    var currentCvFile: Option<FileInfo>
    var preview: Preview
    var selectedStyle: string

    function State(): EditorState
      reads this
    {
      EditorState(profesion, experiencia, idCiud, avatarDefault, currentFile, currentCvFile, preview, selectedStyle)
    }

    constructor ()
      ensures State() == Initial
    {
      profesion, experiencia, idCiud, avatarDefault := "", "", "", "";
      currentFile, currentCvFile := None, None;
      preview, selectedStyle := NoPreview, FallbackStyle;
    }

    method GenerateDefaultAvatar(style: string)
      modifies this
      ensures State() == WithDefaultAvatar(old(State()), style)
    {
      if style !in AvatarStyles {
        return;
      }
      preview := Generated(style);
      avatarDefault := DefaultPrefix + style;
      currentFile := None;
    }

    method Load(d: FreelancerData)
      modifies this
      ensures State() == Loaded(old(State()), d)
    {
      profesion := d.profesion.GetOr("");
      experiencia := d.experiencia.GetOr("");
      idCiud := d.idCiud.GetOr("");
      avatarDefault := d.avatar.GetOr("");
      var source := AvatarSourceOf(d.avatar);
      if source.UploadedAvatar? {
        preview := ApiImage("/api/" + source.path);
      } else if source.DefaultAvatar? {
        selectedStyle := source.style;
        GenerateDefaultAvatar(source.style);
      } else {
        GenerateDefaultAvatar(FallbackStyle);
      }
    }

    /** `handleInputChange` for the three text inputs of the form. */
    method InputChange(name: string, value: string)
      modifies this
      ensures State() == (if name == "profesion" then old(State()).(profesion := value)
                          else if name == "experiencia" then old(State()).(experiencia := value)
                          else if name == "id_ciud" then old(State()).(idCiud := value)
                          else old(State()))
    {
      if name == "profesion" {
        profesion := value;
      } else if name == "experiencia" {
        experiencia := value;
      } else if name == "id_ciud" {
        idCiud := value;
      }
    }

    /** `handleAvatarStyleChange`. */
    method ChooseStyle(style: string)
      modifies this
      ensures State() == WithDefaultAvatar(old(State()).(selectedStyle := style), style)
    {
      selectedStyle := style;
      GenerateDefaultAvatar(style);
    }

    method UploadAvatar(file: Option<FileInfo>) returns (alert: Option<string>)
      modifies this
      ensures (State(), alert) == WithAvatarUpload(old(State()), file)
    {
      if file.None? {
        return None;
      }
      var f := file.value;
      if !StartsWith(f.mimeType, "image/") {
        return Some(NotAnImage);
      }
      if f.size > MaxAvatarBytes {
        return Some(ImageTooLarge);
      }
      preview := Local(f);
      currentFile := file;
      avatarDefault := "";
      alert := None;
    }

    method UploadCv(file: Option<FileInfo>) returns (alert: Option<string>, inputCleared: bool)
      modifies this
      ensures (State(), alert, inputCleared) == WithCvUpload(old(State()), file)
    {
      if file.None? {
        return None, false;
      }
      var f := file.value;
      if f.mimeType != "application/pdf" {
        return Some(NotAPdf), true;
      }
      if f.size > MaxCvBytes {
        return Some(PdfTooLarge), true;
      }
      currentCvFile := file;
      alert, inputCleared := None, false;
    }

    /** `handleSubmit`: appends the fields one at a time. */
    method Submit() returns (fs: seq<FormField>)
      ensures fs == Submitted(State())
    {
      fs := [TextField("profesion", profesion)];
      fs := fs + [TextField("experiencia", experiencia)];
      fs := fs + [TextField("id_ciud", idCiud)];
      if currentFile.Some? {
        fs := fs + [FileField("avatar", currentFile.value)];
      } else if avatarDefault != "" {
        fs := fs + [TextField("avatar_default", avatarDefault)];
      }
      if currentCvFile.Some? {
        fs := fs + [FileField("hoja_vida", currentCvFile.value)];
      }
    }
  }

  // ---------------------------------------------------------------------
  // What the server's update route reads from that form.

  /** `request.form.get(name)`: the first text entry of that name. */
  function FormText(fs: seq<FormField>, name: string): (v: Option<string>)
    ensures v.Some? ==> exists i :: 0 <= i < |fs| && fs[i] == TextField(name, v.value)
  {
    if fs == [] then None
    else if fs[0].TextField? && fs[0].name == name then Some(fs[0].value)
    else FormText(fs[1..], name)
  }

  /** `request.files[name]`: the first file entry of that name. */
  function FormFile(fs: seq<FormField>, name: string): (u: Option<FileInfo>)
    ensures u.Some? ==> exists i :: 0 <= i < |fs| && fs[i] == FileField(name, u.value)
  {
    if fs == [] then None
    else if fs[0].FileField? && fs[0].name == name then Some(fs[0].file)
    else FormFile(fs[1..], name)
  }

  /** A lookup in a concatenation finds the entry in the first part if it is
      there, and looks in the second part otherwise. */
  lemma {:induction false} FormLookupAppend(a: seq<FormField>, b: seq<FormField>, name: string)
    ensures FormText(a + b, name) == if FormText(a, name).Some? then FormText(a, name) else FormText(b, name)
    ensures FormFile(a + b, name) == if FormFile(a, name).Some? then FormFile(a, name) else FormFile(b, name)
  {
    if a != [] {
      assert (a + b)[0] == a[0];
      assert (a + b)[1..] == a[1..] + b;
      FormLookupAppend(a[1..], b, name);
    } else {
      assert a + b == b;
    }
  }

  function UploadOf(f: Option<FileInfo>): Upload {
    if f.Some? then Part(f.value.name) else NoPart
  }

  /** The update the server applies for a submitted form; the sanitised
      file names and fresh hex digits are the server's inputs. */
  function ServerUpdateOf(fs: seq<FormField>, cvName: string, cvHex: string, avatarName: string, avatarHex: string): FreelancerUpdate {
    FreelancerUpdate(
      FormText(fs, "profesion"), FormText(fs, "experiencia"), FormText(fs, "id_ciud"),
      UploadOf(FormFile(fs, "hoja_vida")), cvName, cvHex,
      UploadOf(FormFile(fs, "avatar")), avatarName, avatarHex,
      FormText(fs, "avatar_default"))
  }

  /** The editor's view of a stored freelancer row. */
  function DataOf(f: Freelancer): FreelancerData {
    FreelancerData(Some(f.profesion), Some(f.experiencia), Some(f.idCiud), f.avatar)
  }

  /** The avatar a save without edits leaves: an uploaded or "default_..."
      avatar is kept, anything else becomes "default_avataaars". */
  function AvatarAfterPlainSave(avatar: Option<string>): Option<string> {
    if avatar.Some? && (StartsWith(avatar.value, UploadsPrefix) || StartsWith(avatar.value, DefaultPrefix))
    then avatar
    else Some(DefaultPrefix + FallbackStyle)
  }

  /** What the server reads from a form sent without any file chosen. */
  lemma PlainFormLookups(s: EditorState)
    requires s.currentFile.None? && s.currentCvFile.None?
    ensures var fs := Submitted(s);
      FormText(fs, "profesion") == Some(s.profesion) && FormText(fs, "experiencia") == Some(s.experiencia) &&
      FormText(fs, "id_ciud") == Some(s.idCiud) &&
      FormText(fs, "avatar_default") == (if s.avatarDefault != "" then Some(s.avatarDefault) else None) &&
      FormFile(fs, "avatar").None? && FormFile(fs, "hoja_vida").None?
  {
    var fs := Submitted(s);
    var avatar := if s.avatarDefault != "" then [TextField("avatar_default", s.avatarDefault)] else [];
    assert fs == [fs[0], fs[1], fs[2]] + avatar;
    assert fs[1..] == [fs[1], fs[2]] + avatar;
    assert fs[2..] == [fs[2]] + avatar;
    assert fs[3..] == avatar;
    assert FormText(fs[2..], "id_ciud") == Some(s.idCiud);
    assert FormText(fs[3..], "avatar_default") == (if s.avatarDefault != "" then Some(s.avatarDefault) else None);
    assert FormText(fs[2..], "avatar_default") == FormText(fs[3..], "avatar_default");
    assert FormText(fs[1..], "avatar_default") == FormText(fs[2..], "avatar_default");
  }

  /** Opening the editor on a stored profile and saving it unchanged leaves
      the row as it was, except that a missing or unrecognised avatar is
      replaced by the generated "default_avataaars". */
  lemma PlainSaveKeepsProfile(f: Freelancer, cvName: string, cvHex: string, avatarName: string, avatarHex: string)
    ensures UpdatedFreelancer(f, ServerUpdateOf(Submitted(Loaded(Initial, DataOf(f))), cvName, cvHex, avatarName, avatarHex))
            == f.(avatar := AvatarAfterPlainSave(f.avatar))
  {
    var s := Loaded(Initial, DataOf(f));
    assert FallbackStyle in AvatarStyles;
    assert s.currentFile.None? && s.currentCvFile.None?;
    assert s.avatarDefault != "" && s.avatarDefault == AvatarAfterPlainSave(f.avatar).value by {
      assert |DefaultPrefix| > 0;
    }
    PlainFormLookups(s);
  }
}

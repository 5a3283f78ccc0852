/** The data shapes shared by the core (src/types/index.ts), plus the abstract
    reply of a `fetch` call. */
module Types {
  import opened Wrappers

  /** A `File` or `Blob`: its name, its MIME type and its bytes. */
  datatype Blob = Blob(name: string, mimeType: string, bytes: seq<bv8>)

  /** The request every generator receives (GenParams). */
  datatype GenParams = GenParams(name: string, profession: string, userImage: Blob)

  /** What every generator produces (GenResult). */
  datatype GenResult = GenResult(imageUrl: string, description: string)

  /** One entry of the profession catalogue (ProfessionConfig). */
  datatype ProfessionConfig = ProfessionConfig(value: string, labelText: string, scenario: string)

  /** What the form step hands to the wizard (UserFormData). */
  datatype UserFormData = UserFormData(name: string, profession: string,
                                       customProfession: Option<string>, hasConsent: bool)

  /** A captured photo after processing (ProcessedImage). */
  datatype ProcessedImage = ProcessedImage(file: Blob, preview: string, width: nat, height: nat)

  /** The postcard shown on the result step (PostcardData). */
  datatype PostcardData = PostcardData(name: string, profession: string, description: string,
                                       imageUrl: string, createdAt: string)

  /** The three wizard steps (AppStep: "form" | "photo" | "result"). */
  datatype AppStep = OnForm | OnPhoto | OnResult

  /** The settled outcome of one `fetch`: either the promise rejected (a transport
      failure, with the message of the `TypeError`), or a response with its `ok`
      flag, status, status text and parsed JSON body. */
  datatype HttpOutcome<B> =
    | NetworkFailure(reason: string)
    | HttpResponse(ok: bool, status: nat, statusText: string, body: B)

  /** A parsed JSON body: either parsing failed (`response.json()` rejects with
      a `SyntaxError` carrying this message) or it produced a value. */
  datatype Json<T> = Malformed(syntaxError: string) | Parsed(value: T)

  /** One value of a multipart form: a text field or a file. */
  datatype FormValue = TextField(text: string) | FileField(blob: Blob)

  /** `formData.get(name)`: the value of the first entry with that name. */
  function FormGet(entries: seq<(string, FormValue)>, name: string): Option<FormValue> {
    if entries == [] then None
    else if entries[0].0 == name then Some(entries[0].1)
    else FormGet(entries[1..], name)
  }

  /** `FormGet` finds nothing exactly when no entry has the name, and otherwise the
      value of an entry with that name that no earlier entry shares. */
  lemma {:induction false} FormGetFirst(entries: seq<(string, FormValue)>, name: string)
    ensures FormGet(entries, name).None? <==> forall k | 0 <= k < |entries| :: entries[k].0 != name
    ensures FormGet(entries, name).Some? ==> exists k | 0 <= k < |entries| :: (entries[k] == (name, FormGet(entries, name).value)
      && forall j | 0 <= j < k :: entries[j].0 != name)
  {
    if entries != [] && entries[0].0 != name {
      FormGetFirst(entries[1..], name);
      var r := FormGet(entries, name);
      if r.Some? {
        var k :| 0 <= k < |entries[1..]| && entries[1..][k] == (name, r.value)
          && forall j | 0 <= j < k :: entries[1..][j].0 != name;
        assert entries[k + 1] == (name, r.value);
      } else {
        assert forall k | 1 <= k < |entries| :: entries[k] == entries[1..][k - 1];
      }
    } else if entries != [] {
      assert entries[0] == (name, FormGet(entries, name).value);
    }
  }

  /** The entry at `k` is the first with its name, so `FormGet` finds its value. */
  lemma {:induction false} FormGetAt(entries: seq<(string, FormValue)>, name: string, k: nat)
    requires k < |entries| && entries[k].0 == name
    requires forall j | 0 <= j < k :: entries[j].0 != name
    ensures FormGet(entries, name) == Some(entries[k].1)
  {
    if k > 0 {
      FormGetAt(entries[1..], name, k - 1);
    }
  }

  /** A `FormData` under construction: the entries appended so far, in order. */
  class FormData {
    var entries: seq<(string, FormValue)>

    /** `new FormData()`: no entries. */
    constructor()
      ensures entries == []
    {
      entries := [];
    }

    /** `formData.append(name, value)`: one more entry at the end. */
    method Append(name: string, value: FormValue)
      modifies this
      ensures entries == old(entries) + [(name, value)]
    {
      entries := entries + [(name, value)];
    }
  }
}

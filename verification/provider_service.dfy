/** Garage accounts: registration with an optional image, login, password reset, lookup,
    image retrieval and profile update. */
module ProviderService {
  import opened Wrappers
  import opened JavaText
  import opened Entities
  import opened Repositories

  /** An uploaded image: its original file name, content type and bytes. */
  datatype Upload = Upload(originalFilename: Text, contentType: Text, bytes: seq<byte>)

  /** The provider with an upload's metadata and bytes, when an image was sent and it is not
      empty; otherwise the provider as given. */
  function WithImage(provider: Provider, image: Option<Upload>): (r: Provider)
    ensures image.Some? && |image.value.bytes| > 0 ==>
      && r.imageName == image.value.originalFilename && r.imageType == image.value.contentType
      && r.imageData == Some(image.value.bytes)
    ensures image.None? || |image.value.bytes| == 0 ==> r == provider
    ensures r.(imageName := provider.imageName, imageType := provider.imageType,
               imageData := provider.imageData) == provider
  {
    if image.Some? && |image.value.bytes| > 0 then
      provider.(imageName := image.value.originalFilename, imageType := image.value.contentType,
                imageData := Some(image.value.bytes))
    else provider
  }

  /** `registerProvider`: the provider, with the image when one was sent, saved. */
  method RegisterProvider(providerRepo: ProviderRepo, provider: Provider, image: Option<Upload>)
    returns (r: Result<Provider, string>)
    requires providerRepo.Valid()
    modifies providerRepo
    ensures providerRepo.Valid()
    ensures provider.id == 0 ==>
      && r == Success(WithImage(provider, image).(id := old(providerRepo.nextId)))
      && providerRepo.rows == old(providerRepo.rows) + [r.value]
    ensures provider.id != 0 ==> match ProviderIndex(old(providerRepo.rows), provider.id)
      case Some(i) => r == Success(WithImage(provider, image))
                      && providerRepo.rows == old(providerRepo.rows)[i := r.value]
      case None => r == Failure(StaleRowMessage) && providerRepo.rows == old(providerRepo.rows)
  {
    var toSave := provider;
    if image.Some? && |image.value.bytes| > 0 {
      toSave := toSave.(imageName := image.value.originalFilename);
      toSave := toSave.(imageType := image.value.contentType);
      toSave := toSave.(imageData := Some(image.value.bytes));
    }
    r := providerRepo.Save(toSave);
  }

  /** `login`: the provider with that owner name and password; more than one such provider
      is an error. */
  function Login(providers: seq<Provider>, ownername: Text, password: Text): (r: Result<Option<Provider>, string>)
    ensures r.Success? && r.value.Some? ==>
      r.value.value in providers && r.value.value.ownername == ownername && r.value.value.password == password
    ensures r == Success(None) <==>
      forall p :: p in providers ==> !(p.ownername == ownername && p.password == password)
    ensures r.Failure? <==>
      exists i, j :: 0 <= i < j < |providers|
        && providers[i].ownername == ownername && providers[i].password == password
        && providers[j].ownername == ownername && providers[j].password == password
    ensures r.Failure? ==> r.error == NonUniqueMessage
  {
    ProviderByOwnernameAndPassword(providers, ownername, password)
  }

  const ResetDoneMessage := "Password reset successful"
  const UnknownOwnerMessage := "Provider not found"

  /** In a table whose ids increase, the row found by id `rows[k].id` is row `k`. */
  lemma ProviderIndexOfOwnId(repo: ProviderRepo, k: nat)
    requires repo.Valid() && k < |repo.rows|
    ensures ProviderIndex(repo.rows, repo.rows[k].id) == Some(k)
  {
  }

  /** `resetPassword`: the one provider with that owner name gets the new password; with
      none the answer is "Provider not found" and nothing changes; with several the lookup
      fails and nothing changes. */
  method ResetPassword(providerRepo: ProviderRepo, ownername: Text, newPassword: Text)
    returns (r: Result<string, string>)
    requires providerRepo.Valid()
    modifies providerRepo
    ensures providerRepo.Valid() && providerRepo.nextId == old(providerRepo.nextId)
    ensures match ProviderByOwnername(old(providerRepo.rows), ownername)
      case Failure(e) => r == Failure(e) && providerRepo.rows == old(providerRepo.rows)
      case Success(None) => r == Success(UnknownOwnerMessage) && providerRepo.rows == old(providerRepo.rows)
      case Success(Some(p)) =>
        && r == Success(ResetDoneMessage)
        && exists k :: 0 <= k < |old(providerRepo.rows)| && old(providerRepo.rows)[k] == p &&
             providerRepo.rows == old(providerRepo.rows)[k := p.(password := newPassword)]
  {
    var found := ProviderByOwnername(providerRepo.rows, ownername);
    if found.Failure? {
      return Failure(found.error);
    }
    if found.value.None? {
      return Success(UnknownOwnerMessage);
    }
    var provider := found.value.value;
    var k :| 0 <= k < |providerRepo.rows| && providerRepo.rows[k] == provider;
    ProviderIndexOfOwnId(providerRepo, k);
    var saved := providerRepo.Save(provider.(password := newPassword));
    assert saved.Success?;
    r := Success(ResetDoneMessage);
  }

  /** `getProviderById`: the provider with that id, or null. */
  function GetProviderById(providers: seq<Provider>, id: int): (r: Option<Provider>)
    ensures r.Some? ==> r.value in providers && r.value.id == id
    ensures r.None? <==> forall p :: p in providers ==> p.id != id
  {
    ProviderById(providers, id)
  }

  /** `getProviderImage`: the stored bytes of an existing provider when they are non-null and
      non-empty; null otherwise. */
  function ProviderImage(providers: seq<Provider>, id: int): (r: Option<seq<byte>>)
    ensures r.Some? <==> (ProviderById(providers, id).Some? && ProviderById(providers, id).value.imageData.Some?
                         && |ProviderById(providers, id).value.imageData.value| > 0)
    ensures r.Some? ==> r == ProviderById(providers, id).value.imageData
  {
    match ProviderById(providers, id)
    case None => None
    case Some(p) => if p.imageData.Some? && |p.imageData.value| > 0 then p.imageData else None
  }

  /** A provider registered with a non-empty image gets exactly those bytes back from
      `getProviderImage`, and one registered without an image gets the image it already had. */
  lemma {:induction false} RegisteredImageIsServed(providers: seq<Provider>, saved: Provider,
                                                   provider: Provider, image: Option<Upload>)
    requires forall p :: p in providers ==> p.id != saved.id
    requires saved == WithImage(provider, image).(id := saved.id)
    ensures image.Some? && |image.value.bytes| > 0 ==>
      ProviderImage(providers + [saved], saved.id) == Some(image.value.bytes)
    ensures (image.None? || |image.value.bytes| == 0) && provider.imageData.Some? && |provider.imageData.value| > 0 ==>
      ProviderImage(providers + [saved], saved.id) == provider.imageData
  {
    var all := providers + [saved];
    assert all[|providers|] == saved;
    assert ProviderById(all, saved.id) == Some(saved) by {
      var found := ProviderById(all, saved.id);
      assert found.Some? by { assert saved in all; }
      assert found.value !in providers;
    }
  }

  function UnknownIdMessage(id: int): string
  {
    "Provider not found with id: " + IntToString(id)
  }

  /** `updateProvider`: an id that is not stored is refused with no write; otherwise the
      record replaces the stored one. */
  method UpdateProvider(providerRepo: ProviderRepo, provider: Provider) returns (r: Result<Provider, string>)
    requires providerRepo.Valid()
    modifies providerRepo
    ensures providerRepo.Valid() && providerRepo.nextId == old(providerRepo.nextId)
    ensures match ProviderIndex(old(providerRepo.rows), provider.id)
      case None => r == Failure(UnknownIdMessage(provider.id)) && providerRepo.rows == old(providerRepo.rows)
      case Some(i) => r == Success(provider) && providerRepo.rows == old(providerRepo.rows)[i := provider]
    ensures r.Success? ==> GetProviderById(providerRepo.rows, provider.id) == Some(provider)
  {
    var existing := ProviderIndex(providerRepo.rows, provider.id);
    if existing.None? {
      return Failure(UnknownIdMessage(provider.id));
    }
    r := providerRepo.Save(provider);
    var i := existing.value;
    assert providerRepo.rows[i] == provider;
    ProviderIndexOfOwnId(providerRepo, i);
  }
}

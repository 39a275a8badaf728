/** The Generator component: five form fields, two busy flags and the two
    action handlers. Each handler runs as one sequential method; the card's
    mounting and every collaborator's outcome are parameters. The ghost
    `trace` records the observable effects in order. */
module SoulGenerator {
  import opened Card
  import opened Naming
  import opened Pipeline

  class Generator {
    var name: string
    var agentType: string
    var serial: string
    var soulText: string
    var themeColor: string

    /** True while the download handler runs. */
    var isGenerating: bool
    /** True while the publish handler runs. */
    var isPublishing: bool

    /** File names of downloads whose `toBlob` callback has been scheduled
        but has not run yet. Each name is fixed when the callback is
        scheduled, from the serial the handler saw. */
    var pendingSaves: seq<string>

    /** Every effect so far, oldest first. */
    ghost var trace: seq<Effect>

    ghost predicate Valid()
      reads this
    {
      InsertsBacked(trace)
    }

    /** The form's current value. */
    function Form(): CardData
      reads this
    {
      CardData(name, agentType, serial, soulText, themeColor)
    }

    /** The `disabled` attribute of the download button; the publish button
        writes the same disjunction the other way round, so one predicate
        serves both. What it means, that a click is then inert, is stated by
        `ClickDownload` and `ClickPublish`. */
    predicate TriggersDisabled()
      reads this
    {
      isGenerating || isPublishing
    }

    /** The form mounts with its default values and both flags cleared. */
    constructor ()
      ensures Valid()
      ensures Form() == DefaultCard()
      ensures IsPresetSelected(PresetColors[0], themeColor)
      ensures !isGenerating && !isPublishing && !TriggersDisabled()
      ensures pendingSaves == [] && trace == []
    {
      var d := DefaultCard();
      name, agentType, serial, soulText, themeColor := d.name, d.agentType, d.serial, d.soulText, d.themeColor;
      isGenerating, isPublishing := false, false;
      pendingSaves := [];
      trace := [];
    }

    method SetName(value: string)
      requires Valid()
      modifies this`name
      ensures Valid()
      ensures Form() == old(Form()).(name := value)
    {
      name := value;
    }

    method SetAgentType(value: string)
      requires Valid()
      modifies this`agentType
      ensures Valid()
      ensures Form() == old(Form()).(agentType := value)
    {
      agentType := value;
    }

    method SetSerial(value: string)
      requires Valid()
      modifies this`serial
      ensures Valid()
      ensures Form() == old(Form()).(serial := value)
    {
      serial := value;
    }

    method SetSoulText(value: string)
      requires Valid()
      modifies this`soulText
      ensures Valid()
      ensures Form() == old(Form()).(soulText := value)
    {
      soulText := value;
    }

    /** The colour picker and the free-text colour input both call this:
        any text is accepted and the last write wins. */
    method SetThemeColor(value: string)
      requires Valid()
      modifies this`themeColor
      ensures Valid()
      ensures Form() == old(Form()).(themeColor := value)
      ensures forall i :: 0 <= i < |PresetColors| ==>
                (IsPresetSelected(PresetColors[i], themeColor) <==> value == PresetColors[i].value)
    {
      themeColor := value;
    }

    /** A click on preset button `i` writes exactly that preset's value, after
        which that button, and no other, is drawn as selected. */
    method SelectPreset(i: nat)
      requires Valid()
      requires i < |PresetColors|
      modifies this`themeColor
      ensures Valid()
      ensures Form() == old(Form()).(themeColor := PresetColors[i].value)
      ensures forall j :: 0 <= j < |PresetColors| ==>
                (IsPresetSelected(PresetColors[j], themeColor) <==> j == i)
    {
      themeColor := PresetColors[i].value;
      forall j | 0 <= j < |PresetColors| && IsPresetSelected(PresetColors[j], themeColor)
        ensures j == i
      {
        PresetSelectionUnique(themeColor, i, j);
      }
    }

    /** The download handler. Without a mounted card it returns at once.
        Otherwise it captures; a capture error, or a `toBlob` call that throws
        at once, shows the download notice. Otherwise the `toBlob` callback is
        scheduled, and the `finally` clears `isGenerating` before that
        callback has run. */
    method HandleDownload(mounted: bool, capture: CaptureOutcome, toBlobThrows: bool)
      requires Valid()
      modifies this`isGenerating, this`pendingSaves, this`trace
      ensures Valid()
      ensures !mounted ==> unchanged(this)
      ensures mounted ==> !isGenerating
      ensures mounted ==> trace == old(trace) + DownloadEffects(capture, toBlobThrows)
      ensures mounted ==>
                pendingSaves == old(pendingSaves)
                  + (if capture.Captured? && !toBlobThrows then [DownloadFileName(serial)] else [])
    {
      if !mounted {
        return;
      }
      ghost var effects := DownloadEffects(capture, toBlobThrows);
      DownloadEffectsBacked(capture, toBlobThrows);
      isGenerating := true;
      trace := trace + [Capture];
      match capture {
        case CaptureThrew(_) =>
          trace := trace + [Alert(DownloadFailed)];
          assert effects == [Capture, Alert(DownloadFailed)];
          assert trace == old(trace) + effects;
        case Captured =>
          trace := trace + [Encode];
          if toBlobThrows {
            trace := trace + [Alert(DownloadFailed)];
            assert effects == [Capture, Encode, Alert(DownloadFailed)];
            assert trace == old(trace) + effects;
          } else {
            pendingSaves := pendingSaves + [DownloadFileName(serial)];
            assert effects == [Capture, Encode];
            assert trace == old(trace) + effects;
          }
      }
      isGenerating := false;
      InsertsBackedAppend(old(trace), effects);
    }

    /** The `toBlob` callback of pending download `k` runs: with a blob the
        file is saved under the name fixed when it was scheduled; without one
        it throws outside the handler's catch, so nothing is saved and no
        notice is shown. Neither flag is touched. */
    method CompleteSave(k: nat, blobProduced: bool)
      requires Valid()
      requires k < |pendingSaves|
      modifies this`pendingSaves, this`trace
      ensures Valid()
      ensures pendingSaves == old(pendingSaves[..k] + pendingSaves[k + 1..])
      ensures trace == old(trace) + SaveEffects(old(pendingSaves[k]), blobProduced)
    {
      var fileName := pendingSaves[k];
      pendingSaves := pendingSaves[..k] + pendingSaves[k + 1..];
      if blobProduced {
        trace := trace + [Download(fileName)];
      }
      SaveEffectsBacked(fileName, blobProduced);
      InsertsBackedAppend(old(trace), SaveEffects(fileName, blobProduced));
    }

    /** The publish handler. Without a mounted card it returns at once.
        Otherwise it captures, encodes, uploads to the UUID path, resolves the
        public URL and inserts the record, stopping at the first failure; the
        catch turns that failure into the failure notice, and the `finally`
        clears `isPublishing` whatever happened. */
    method HandlePublish(mounted: bool, w: PublishWorld)
      requires Valid()
      modifies this`isPublishing, this`trace
      ensures Valid()
      ensures !mounted ==> unchanged(this)
      ensures mounted ==> !isPublishing
      ensures mounted ==> trace == old(trace) + PublishEffects(Form(), w)
    {
      if !mounted {
        return;
      }
      isPublishing := true;
      var notice: Notice;
      trace := trace + [Capture];
      if w.capture.CaptureThrew? {
        notice := PublishFailed(CaptureFailed(w.capture.message));
      } else {
        trace := trace + [Encode];
        if w.encode.BlobNull? {
          notice := PublishFailed(BlobMissing);
        } else if w.encode.EncodeThrew? {
          notice := PublishFailed(EncodeFailed(w.encode.message));
        } else {
          var path := UploadPath(w.uuid, serial);
          trace := trace + [Upload(path, w.upload)];
          if w.upload.UploadError? {
            notice := PublishFailed(UploadFailed(w.upload.message));
          } else {
            trace := trace + [ResolveUrl(path, w.publicUrl)];
            trace := trace + [Insert(AgentRecordOf(Form(), w.publicUrl))];
            match w.insert {
              case InsertError(m) =>
                notice := PublishFailed(InsertFailed(m));
              case Inserted(id) =>
                notice := PublishSucceeded(id, w.publicUrl);
            }
          }
        }
      }
      trace := trace + [Alert(notice)];
      isPublishing := false;
      assert trace == old(trace) + PublishEffects(Form(), w);
      PublishEffectsBacked(Form(), w);
      InsertsBackedAppend(old(trace), PublishEffects(Form(), w));
    }

    /** A click on the download button: inert while either action is busy,
        the download handler otherwise. */
    method ClickDownload(mounted: bool, capture: CaptureOutcome, toBlobThrows: bool)
      requires Valid()
      modifies this`isGenerating, this`pendingSaves, this`trace
      ensures Valid()
      ensures old(TriggersDisabled()) || !mounted ==> unchanged(this)
      ensures !old(TriggersDisabled()) && mounted ==>
                !isGenerating && !isPublishing
                && trace == old(trace) + DownloadEffects(capture, toBlobThrows)
                && pendingSaves == old(pendingSaves)
                     + (if capture.Captured? && !toBlobThrows then [DownloadFileName(serial)] else [])
    {
      if !TriggersDisabled() {
        HandleDownload(mounted, capture, toBlobThrows);
      }
    }

    /** A click on the publish button: inert while either action is busy,
        the publish handler otherwise. */
    method ClickPublish(mounted: bool, w: PublishWorld)
      requires Valid()
      modifies this`isPublishing, this`trace
      ensures Valid()
      ensures old(TriggersDisabled()) || !mounted ==> unchanged(this)
      ensures !old(TriggersDisabled()) && mounted ==>
                !isGenerating && !isPublishing
                && trace == old(trace) + PublishEffects(Form(), w)
    {
      if !TriggersDisabled() {
        HandlePublish(mounted, w);
      }
    }
  }
}

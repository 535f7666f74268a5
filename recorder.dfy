/** The microphone recorder: the start/stop guards, the chunk list and the clip it hands over. */
module Recorder {
  import opened Common

  /** The states of a `MediaRecorder`. */
  datatype RecorderState = Inactive | Recording

  const ClipType: string := "audio/webm"

  /** The bytes of the chunks, in the order they arrived. */
  function Join(chunks: seq<Blob>): (bytes: seq<bv8>)
  {
    if chunks == [] then [] else Join(chunks[..|chunks| - 1]) + chunks[|chunks| - 1].bytes
  }

  /** The clip assembled when recording stops: a WebM audio blob made of the chunks. */
  function ClipOf(chunks: seq<Blob>): (clip: Blob)
    ensures clip.mimeType == ClipType
    ensures chunks == [] ==> clip.bytes == []
  {
    Blob(ClipType, Join(chunks))
  }

  /** Every chunk's bytes appear in the clip, at the offset where the earlier chunks end. */
  lemma {:induction false} JoinPlacesChunk(chunks: seq<Blob>, k: nat)
    requires k < |chunks|
    ensures |Join(chunks[..k])| + |chunks[k].bytes| <= |Join(chunks)|
    ensures Join(chunks)[|Join(chunks[..k])|..|Join(chunks[..k])| + |chunks[k].bytes|] == chunks[k].bytes
  {
    var n := |chunks|;
    var init := chunks[..n - 1];
    assert Join(chunks) == Join(init) + chunks[n - 1].bytes;
    if k == n - 1 {
      assert chunks[..k] == init;
    } else {
      JoinPlacesChunk(init, k);
      assert init[..k] == chunks[..k];
      assert init[k] == chunks[k];
    }
  }

  /** The recorder component. `recorder` is the media recorder (absent until the microphone is
      granted), `chunks` the buffered data, `completed` the clips handed to the page, in order. */
  class AudioRecorder {
    var isRecording: bool
    var hasPermission: Option<bool>
    var recorder: Option<RecorderState>
    var chunks: seq<Blob>
    var completed: seq<Blob>
    var notices: seq<Notice>

    /** The media recorder records only while the button shows Stop, the button shows Stop only
        while a media recorder exists, and a recorder exists exactly when permission was granted.
        The converse of the first clause fails once a recording ends by itself (see `Ended`). */
    ghost predicate Valid()
      reads this
    {
      && (recorder == Some(Recording) ==> isRecording)
      && (isRecording ==> recorder.Some?)
      && (recorder.Some? <==> hasPermission == Some(true))
    }

    /** The button shows Stop but the media recorder is idle: stopping does nothing. */
    predicate Stuck()
      reads this
    {
      isRecording && recorder == Some(Inactive)
    }

    constructor ()
      ensures Valid()
      ensures !isRecording && hasPermission == None && recorder == None
      ensures chunks == [] && completed == [] && notices == []
    {
      isRecording := false;
      hasPermission := None;
      recorder := None;
      chunks := [];
      completed := [];
      notices := [];
    }

    /** The microphone request succeeds: a media recorder is created, idle. */
    method PermissionGranted()
      requires Valid() && hasPermission == None
      modifies this`hasPermission, this`recorder
      ensures Valid()
      ensures hasPermission == Some(true) && recorder == Some(Inactive)
    {
      hasPermission := Some(true);
      recorder := Some(Inactive);
    }

    /** The microphone request fails: one "Microphone Access Denied" toast, no recorder. */
    method PermissionDenied()
      requires Valid() && hasPermission == None
      modifies this`hasPermission, this`notices
      ensures Valid()
      ensures hasPermission == Some(false) && recorder == None
      ensures notices == old(notices) + [MicrophoneAccessDenied]
    {
      hasPermission := Some(false);
      notices := notices + [MicrophoneAccessDenied];
    }

    /** Starts only from an idle recorder, emptying the chunk list first. */
    method StartRecording()
      requires Valid()
      modifies this`chunks, this`recorder, this`isRecording
      ensures Valid()
      ensures old(recorder) == Some(Inactive) ==> chunks == [] && recorder == Some(Recording) && isRecording
      ensures old(recorder) != Some(Inactive) ==>
        chunks == old(chunks) && recorder == old(recorder) && isRecording == old(isRecording)
    {
      if recorder == Some(Inactive) {
        chunks := [];
        recorder := Some(Recording);
        isRecording := true;
      }
    }

    /** Stops only a recorder that is recording. */
    method StopRecording()
      requires Valid()
      modifies this`recorder, this`isRecording
      ensures Valid()
      ensures old(recorder) == Some(Recording) ==> recorder == Some(Inactive) && !isRecording
      ensures old(recorder) != Some(Recording) ==> recorder == old(recorder) && isRecording == old(isRecording)
    {
      if recorder == Some(Recording) {
        recorder := Some(Inactive);
        isRecording := false;
      }
    }

    /** The record button: ignored while disabled; otherwise it stops when the button shows Stop
        and starts when it shows Record, each under its own guard on the media recorder's state.
        A stuck button stays stuck. */
    method Toggle(disabled: bool)
      requires Valid()
      modifies this`chunks, this`recorder, this`isRecording
      ensures Valid()
      ensures disabled ==> chunks == old(chunks) && recorder == old(recorder) && isRecording == old(isRecording)
      ensures !disabled && old(isRecording) && old(recorder) == Some(Recording) ==>
        recorder == Some(Inactive) && !isRecording && chunks == old(chunks)
      ensures !disabled && old(isRecording) && old(recorder) != Some(Recording) ==>
        chunks == old(chunks) && recorder == old(recorder) && isRecording
      ensures !disabled && !old(isRecording) && old(recorder) == Some(Inactive) ==>
        chunks == [] && recorder == Some(Recording) && isRecording
      ensures !disabled && !old(isRecording) && old(recorder) != Some(Inactive) ==>
        chunks == old(chunks) && recorder == old(recorder) && !isRecording
      ensures old(Stuck()) ==> Stuck()
    {
      if disabled {
        return;
      }
      if isRecording {
        StopRecording();
      } else {
        StartRecording();
      }
    }

    /** The media recorder stops by itself (its audio track ended): it becomes idle, while the
        component's `isRecording` is left as it was, so a running recording leaves the button stuck. */
    method Ended()
      requires Valid()
      modifies this`recorder
      ensures Valid()
      ensures old(recorder) == Some(Recording) ==> recorder == Some(Inactive) && Stuck()
      ensures old(recorder) != Some(Recording) ==> recorder == old(recorder)
    {
      if recorder == Some(Recording) {
        recorder := Some(Inactive);
      }
    }

    /** The recorder delivers a chunk of data. */
    method DataAvailable(chunk: Blob)
      modifies this`chunks
      ensures chunks == old(chunks) + [chunk]
    {
      chunks := chunks + [chunk];
    }

    /** The media recorder has become idle, by `StopRecording` or by itself, and reports it: the
        chunks become one clip for the page, whatever the `disabled` prop, and the list is emptied
        again. */
    method Stopped()
      requires recorder == Some(Inactive)
      modifies this`chunks, this`completed
      ensures completed == old(completed) + [ClipOf(old(chunks))]
      ensures chunks == []
    {
      completed := completed + [ClipOf(chunks)];
      chunks := [];
    }
  }
}
